/** The response object, its printer, and the proof that the parser inverts the printer. */
module HttpResponse {
  import opened Optional
  import opened HttpText
  import opened HttpParser

  // ---- std::map<string, string>: pairs in strictly ascending key order ----------------------

  type Pairs = seq<(string, string)>

  predicate Less(a: string, b: string) {
    if b == "" then false
    else if a == "" then true
    else if a[0] != b[0] then a[0] < b[0]
    else Less(a[1..], b[1..])
  }

  /** The order of strings: at the first difference the smaller character is first, and a string comes
      before those it begins. */
  lemma {:induction false} LessIsLexicographic(a: string, b: string, i: nat)
    requires i <= |a| && i <= |b| && a[..i] == b[..i]
    ensures i < |a| && i < |b| && a[i] < b[i] ==> Less(a, b)
    ensures i == |a| && i < |b| ==> Less(a, b)
    ensures i < |a| && i < |b| && a[i] > b[i] ==> !Less(a, b)
    ensures i == |b| ==> !Less(a, b)
    decreases i
  {
    if i > 0 {
      assert a[0] == a[..i][0] == b[..i][0] == b[0];
      assert a[1..][..i - 1] == a[..i][1..] && b[1..][..i - 1] == b[..i][1..];
      LessIsLexicographic(a[1..], b[1..], i - 1);
    }
  }

  lemma {:induction false} LessIsTotal(a: string, b: string)
    ensures !(Less(a, b) && Less(b, a)) && (Less(a, b) || Less(b, a) || a == b) && !Less(a, a)
    decreases |a|
  {
    if a != "" {
      LessIsTotal(a[1..], a[1..]);
      if b != "" && a[0] == b[0] {
        LessIsTotal(a[1..], b[1..]);
        assert a == [a[0]] + a[1..] && b == [b[0]] + b[1..];
      }
    }
  }

  lemma {:induction false} LessIsTransitive(a: string, b: string, c: string)
    requires Less(a, b) && Less(b, c)
    ensures Less(a, c)
    decreases |a|
  {
    if a != "" && a[0] == b[0] == c[0] {
      LessIsTransitive(a[1..], b[1..], c[1..]);
    }
  }

  predicate Ascending(h: Pairs) {
    forall i, j | 0 <= i < j < |h| :: Less(h[i].0, h[j].0)
  }

  function AsMap(h: Pairs): map<string, string> {
    if h == [] then map[] else AsMap(h[1..])[h[0].0 := h[0].1]
  }

  /** operator[] followed by an assignment. */
  function Assign(h: Pairs, k: string, v: string): (r: Pairs)
    ensures forall p | p in r :: p.0 == k || p in h
  {
    if h == [] then [(k, v)]
    else if h[0].0 == k then [(k, v)] + h[1..]
    else if Less(k, h[0].0) then [(k, v)] + h
    else [h[0]] + Assign(h[1..], k, v)
  }

  lemma {:induction false} AssignKeepsOrder(h: Pairs, k: string, v: string)
    requires Ascending(h)
    ensures Ascending(Assign(h, k, v))
  {
    if h != [] {
      LessIsTotal(k, h[0].0);
      if Less(k, h[0].0) {
        BelowFirst(h, k);
      } else if h[0].0 != k {
        AssignKeepsOrder(h[1..], k, v);
        var r := Assign(h[1..], k, v);
        hide Less, Assign;
        forall i | 0 <= i < |r| ensures Less(h[0].0, r[i].0) {
          assert r[i] in r;
        }
      }
    }
  }

  lemma {:induction false} BelowFirst(h: Pairs, k: string)
    requires Ascending(h) && h != [] && Less(k, h[0].0)
    ensures forall i | 0 <= i < |h| :: Less(k, h[i].0)
  {
    forall i | 0 < i < |h| ensures Less(k, h[i].0) {
      LessIsTransitive(k, h[0].0, h[i].0);
    }
  }

  /** The sorted pairs stay sorted and mean a map update: one value per key, the last one set. */
  lemma {:induction false} AssignIsMapUpdate(h: Pairs, k: string, v: string)
    requires Ascending(h)
    ensures Ascending(Assign(h, k, v))
    ensures AsMap(Assign(h, k, v)) == AsMap(h)[k := v]
  {
    AssignKeepsOrder(h, k, v);
    if h != [] && !Less(k, h[0].0) && h[0].0 != k {
      AssignIsMapUpdate(h[1..], k, v);
    }
  }

  type Fields = h: Pairs | Ascending(h) witness []

  function WithHeader(h: Fields, k: string, v: string): (r: Fields)
    ensures AsMap(r) == AsMap(h)[k := v]
  {
    AssignIsMapUpdate(h, k, v);
    Assign(h, k, v)
  }

  /** The map and its pairs say the same. */
  lemma {:induction false} AsMapHas(h: Pairs, k: string, v: string)
    requires Ascending(h)
    ensures (k, v) in h <==> k in AsMap(h) && AsMap(h)[k] == v
  {
    hide Less;
    if h != [] {
      AsMapHas(h[1..], k, v);
      assert (k, v) in h <==> (k, v) == h[0] || (k, v) in h[1..];
      if h[0].0 == k {
        forall p | p in h[1..] ensures p.0 != k {
          var i :| 0 < i < |h| && h[i] == p;
          LessIsTotal(h[0].0, h[i].0);
        }
      }
    }
  }

  // ---- Printing -----------------------------------------------------------------------------

  datatype Response = Response(version: string, statusCode: int, headers: Fields, body: string)

  // As constructed, and as left by reset(), which clears the version too.
  const NEW_RESPONSE := Response("HTTP/1.1", 200, [], "")
  const BLANK_RESPONSE := Response("", 200, [], "")

  function StatusMessage(code: int): string {
    match code
    case 200 => "OK"
    case 400 => "Bad Request"
    case 404 => "Not Found"
    case 500 => "Internal Server Error"
    case _ => "Unknown"
  }

  function HeaderLines(h: Pairs): string {
    if h == [] then "" else h[0].0 + ": " + h[0].1 + "\r\n" + HeaderLines(h[1..])
  }

  // Any message: three words, header lines, an empty line and the body.
  function Message(a: string, b: string, c: string, h: Pairs, body: string): string {
    a + " " + b + " " + c + "\r\n" + (HeaderLines(h) + ("\r\n" + body))
  }

  function Printed(r: Response): string {
    Message(r.version, DecimalInt(r.statusCode), StatusMessage(r.statusCode), r.headers, r.body)
  }

  /** Each header is a line of its own: name, colon, space, value. */
  lemma {:induction false} HeaderLinesAt(h: Pairs, i: nat)
    requires i < |h|
    ensures HeaderLines(h)
            == HeaderLines(h[..i]) + (h[i].0 + [':', ' '] + h[i].1 + ['\r', '\n']) + HeaderLines(h[i + 1..])
    ensures HeaderLines([]) == ""
  {
    if i == 0 {
      FirstHeaderLine(h);
      hide HeaderLines;
      assert h[..0] == [];
    } else {
      HeaderLinesAt(h[1..], i - 1);
      assert h[1..][..i - 1] == h[..i][1..] && h[1..][i - 1 + 1..] == h[i + 1..];
      FirstHeaderLine(h);
      FirstHeaderLine(h[..i]);
      hide HeaderLines;
      FourTogether(h[0].0 + ": " + h[0].1 + "\r\n", HeaderLines(h[..i][1..]),
                   h[i].0 + [':', ' '] + h[i].1 + ['\r', '\n'], HeaderLines(h[i + 1..]));
    }
  }

  lemma FourTogether(a: string, b: string, c: string, d: string)
    ensures a + (b + c + d) == a + b + c + d
  {
  }

  lemma {:induction false} FirstHeaderLine(h: Pairs)
    requires h != []
    ensures HeaderLines(h) == h[0].0 + ": " + h[0].1 + "\r\n" + HeaderLines(h[1..])
  {
  }

  /** The printed text itself, with its reason phrases. */
  lemma {:induction false} PrintedText(r: Response)
    ensures var phrase := if r.statusCode == 200 then "OK" else if r.statusCode == 400 then "Bad Request"
                          else if r.statusCode == 404 then "Not Found"
                          else if r.statusCode == 500 then "Internal Server Error" else "Unknown";
            Printed(r) == r.version + [' '] + DecimalInt(r.statusCode) + [' '] + phrase + ['\r', '\n']
                          + HeaderLines(r.headers) + ['\r', '\n'] + r.body
  {
    hide HeaderLines, DecimalInt;
    var first := r.version + " " + DecimalInt(r.statusCode) + " " + StatusMessage(r.statusCode) + "\r\n";
    var lines := HeaderLines(r.headers);
    assert first + (lines + ("\r\n" + r.body)) == first + lines + ['\r', '\n'] + r.body;
  }

  // ---- The round trip -----------------------------------------------------------------------

  /** A header that survives printing: the parser trims spaces around values and stops keys at ':'. */
  predicate Printable(field: (string, string)) {
    && ':' !in field.0 && NoCrlf(field.0)
    && NoCrlf(field.1) && NoEdgeSpaces(field.1)
  }

  predicate AllPrintable(h: Pairs) {
    forall i | 0 <= i < |h| :: Printable(h[i])
  }

  // What the parser's header map becomes: later lines overwrite earlier ones.
  function Collected(m: map<string, string>, h: Pairs): map<string, string>
    decreases |h|
  {
    if h == [] then m else Collected(m[Lowercase(h[0].0) := h[0].1], h[1..])
  }

  predicate DistinctLowered(h: Pairs) {
    forall i, j | 0 <= i < j < |h| :: Lowercase(h[i].0) != Lowercase(h[j].0)
  }

  // A key no header folds onto is left as it was.
  lemma {:induction false} CollectedMisses(m: map<string, string>, h: Pairs, k: string)
    requires forall i | 0 <= i < |h| :: Lowercase(h[i].0) != k
    ensures k in Collected(m, h) <==> k in m
    ensures k in m ==> Collected(m, h)[k] == m[k]
    decreases |h|
  {
    hide Lowercase;
    if h != [] {
      CollectedMisses(m[Lowercase(h[0].0) := h[0].1], h[1..], k);
    }
  }

  lemma {:induction false} CollectedHits(m: map<string, string>, h: Pairs, i: nat)
    requires DistinctLowered(h) && i < |h|
    ensures var k := Lowercase(h[i].0); k in Collected(m, h) && Collected(m, h)[k] == h[i].1
    decreases |h|
  {
    hide Lowercase;
    var m' := m[Lowercase(h[0].0) := h[0].1];
    if i == 0 {
      CollectedMisses(m', h[1..], Lowercase(h[0].0));
    } else {
      CollectedHits(m', h[1..], i - 1);
    }
  }

  /** With keys distinct after lowercasing, every header comes back under its lowercased key and
      nothing else does. */
  lemma {:induction false} CollectedIsExact(m: map<string, string>, h: Pairs)
    requires DistinctLowered(h)
    ensures forall k :: k in Collected(m, h) <==> k in m || exists i :: 0 <= i < |h| && Lowercase(h[i].0) == k
    ensures forall i | 0 <= i < |h| ::
              Lowercase(h[i].0) in Collected(m, h) && Collected(m, h)[Lowercase(h[i].0)] == h[i].1
    ensures forall k | k in m && forall i | 0 <= i < |h| :: Lowercase(h[i].0) != k :: Collected(m, h)[k] == m[k]
  {
    hide Lowercase, Collected, DistinctLowered;
    forall i | 0 <= i < |h|
      ensures Lowercase(h[i].0) in Collected(m, h) && Collected(m, h)[Lowercase(h[i].0)] == h[i].1
    {
      CollectedHits(m, h, i);
    }
    forall k | forall i | 0 <= i < |h| :: Lowercase(h[i].0) != k
      ensures (k in Collected(m, h) <==> k in m) && (k in m ==> Collected(m, h)[k] == m[k])
    {
      CollectedMisses(m, h, k);
    }
  }

  predicate DistinctNames(h: Pairs) {
    forall i, j | 0 <= i < j < |h| :: !SameName(h[i].0, h[j].0)
  }

  /** Names that differ in more than case: each comes back in small letters with its value, and no key
      that is not such a name's is there. */
  lemma {:induction false} HeadersComeBack(h: Pairs, key: string)
    requires DistinctNames(h) && NoCapitals(key)
    ensures DistinctLowered(h)
    ensures forall i | 0 <= i < |h| && SameName(h[i].0, key) ::
              key in Collected(map[], h) && Collected(map[], h)[key] == h[i].1
    ensures (forall i | 0 <= i < |h| :: !SameName(h[i].0, key)) ==> key !in Collected(map[], h)
  {
    hide Lowercase, SameName, NoCapitals, Collected;
    forall i, j | 0 <= i < j < |h| ensures Lowercase(h[i].0) != Lowercase(h[j].0) {
      SameKeyIff(h[i].0, h[j].0);
    }
    forall i | 0 <= i < |h| ensures SameName(h[i].0, key) <==> Lowercase(h[i].0) == key {
      LowercaseIs(h[i].0, key);
    }
    forall i | 0 <= i < |h| && SameName(h[i].0, key)
      ensures key in Collected(map[], h) && Collected(map[], h)[key] == h[i].1
    {
      CollectedHits(map[], h, i);
    }
    if forall i | 0 <= i < |h| :: !SameName(h[i].0, key) {
      CollectedMisses(map[], h, key);
    }
  }

  lemma {:induction false} SpacesKept(v: string)
    requires NoEdgeSpaces(v)
    ensures DropTrailingSpaces(SkipSpaces(" " + v)) == v
  {
    assert (" " + v)[1..] == v;
  }

  lemma HeaderLineReadsBack(field: (string, string), q: Request)
    requires Printable(field)
    ensures var line := field.0 + ": " + field.1;
            NoCrlf(line) && line != ""
            && ParseHeaderLine(line, q) == Some(q.(headers := q.headers[Lowercase(field.0) := field.1]))
    ensures forall key | SameName(field.0, key) && NoCapitals(key) ::
              ParseHeaderLine(field.0 + ": " + field.1, q) == Some(q.(headers := q.headers[key := field.1]))
  {
    forall key | SameName(field.0, key) && NoCapitals(key) ensures Lowercase(field.0) == key {
      LowercaseIs(field.0, key);
    }
    hide Lowercase, SameName, NoCapitals;
    var line := field.0 + ": " + field.1;
    var value := " " + field.1;
    assert line == field.0 + [':'] + value;
    FindCharJoined(field.0, ':', value);
    SpacesKept(field.1);
    NoCrlfConcat("", ' ', field.1);
    assert value == "" + [' '] + field.1;
    NoCrlfConcat(field.0, ':', value);
  }

  lemma StartLineReadsBack(a: string, b: string, c: string, q: Request)
    requires ' ' !in a && ' ' !in b && NoCrlf(a) && NoCrlf(b) && NoCrlf(c)
    ensures var line := a + " " + b + " " + c;
            NoCrlf(line) && ParseRequestLine(line, q) == Some(q.(method_ := a, path := b, version := c))
  {
    hide NoCrlf, FindChar;
    var line := a + " " + b + " " + c;
    var tail := b + [' '] + c;
    assert line == a + [' '] + tail;
    NoCrlfConcat(b, ' ', c);
    NoCrlfConcat(a, ' ', tail);
    FindCharJoined(a, ' ', tail);
    FindCharJoined(b, ' ', c);
    assert line[..|a|] == a && line[|a| + 1..] == tail;
    assert tail[..|b|] == b && tail[|b| + 1..] == c;
  }

  const IN_HEADERS := Machine(Headers, 0, 0)

  /** The header loop: all printed lines are taken in, whatever text follows. */
  lemma {:induction false} HeaderLinesReadBack(h: Pairs, q: Request, tail: string)
    requires AllPrintable(h)
    ensures Parse(IN_HEADERS, q, HeaderLines(h) + tail)
            == Parse(IN_HEADERS, q.(headers := Collected(q.headers, h)), tail)
    decreases |h|
  {
    if h == [] {
      assert HeaderLines(h) + tail == tail;
    } else {
      var line := h[0].0 + ": " + h[0].1;
      var after := HeaderLines(h[1..]) + tail;
      var s := line + "\r\n" + after;
      assert HeaderLines(h) + tail == s;
      HeaderLineReadsBack(h[0], q);
      SplitLineExact(line, after);
      var q' := q.(headers := q.headers[Lowercase(h[0].0) := h[0].1]);
      assert TakeTurn(IN_HEADERS, q, s) == Turn(false, Parsed(NeedMore, IN_HEADERS, q', after));
      assert AllPrintable(h[1..]);
      HeaderLinesReadBack(h[1..], q', tail);
    }
  }

  lemma {:induction false} EndHeadersReadsBack(q: Request, body: string)
    ensures Parse(IN_HEADERS, q, "\r\n" + body) ==
              var t := EndHeaders(IN_HEADERS, q, body);
              if t.done then t.out else Parse(t.out.machine, t.out.request, t.out.rest)
  {
    var s := "\r\n" + body;
    assert s == "" + "\r\n" + body;
    SplitLineExact("", body);
    assert TakeTurn(IN_HEADERS, q, s) == EndHeaders(IN_HEADERS, q, body);
  }

  lemma {:induction false} WholeBody(q: Request, n: size_t, body: string)
    requires q.body == "" && n != 0
    ensures var r := Parse(Machine(Body, n, 0), q, body);
            (r.result == Success && r.rest == "" <==> n == |body|)
            && (n == |body| ==> r.request == q.(body := body))
  {
  }

  /** Past the empty line: the parse is complete, and everything is used, exactly when the length
      the headers declare is the length of the body. */
  lemma {:induction false} BodyReadsBack(q: Request, body: string)
    requires q.body == ""
    ensures var r := Parse(IN_HEADERS, q, "\r\n" + body);
            (r.result == Success && r.rest == "" <==> DeclaredLength(q) == Some(|body|))
            && (DeclaredLength(q) == Some(|body|) ==> r.request == q.(body := body))
  {
    hide TakeTurn, Stoul;
    EndHeadersReadsBack(q, body);
    if DeclaredLength(q).Some? && DeclaredLength(q).value != 0 {
      WholeBody(q, DeclaredLength(q).value, body);
    }
  }

  /** Any printed message, parsed by a fresh parser. */
  lemma {:induction false} MessageRoundTrip(a: string, b: string, c: string, h: Pairs, body: string)
    requires ' ' !in a && ' ' !in b && NoCrlf(a) && NoCrlf(b) && NoCrlf(c) && AllPrintable(h)
    ensures var r := Parse(FRESH, NO_REQUEST, Message(a, b, c, h, body));
            var q := Request(a, b, c, Collected(map[], h), body);
            && (r.result == Success && r.rest == "" <==> DeclaredLength(q) == Some(|body|))
            && (DeclaredLength(q) == Some(|body|) ==> r.request == q)
  {
    var line := a + " " + b + " " + c;
    var after := HeaderLines(h) + ("\r\n" + body);
    var s := line + "\r\n" + after;
    assert Message(a, b, c, h, body) == s;
    StartLineReadsBack(a, b, c, NO_REQUEST);
    SplitLineExact(line, after);
    var q0 := Request(a, b, c, map[], "");
    assert TakeTurn(FRESH, NO_REQUEST, s) == Turn(false, Parsed(NeedMore, IN_HEADERS, q0, after));
    HeaderLinesReadBack(h, q0, "\r\n" + body);
    BodyReadsBack(q0.(headers := Collected(map[], h)), body);
  }

  lemma StatusWordsAreClean(code: int)
    ensures ' ' !in DecimalInt(code) && NoCrlf(DecimalInt(code)) && NoCrlf(StatusMessage(code))
  {
    var s := DecimalInt(code);
    assert forall i | 0 <= i < |s| :: s[i] == '-' || IsDigit(s[i]);
    var t := StatusMessage(code);
    assert '\r' !in t;
    forall i: nat | i < |t| ensures !CrlfAt(t, i) {
      assert t[i] != '\r';
    }
  }

  /** The printer/parser round trip, with its exact condition: a printed response is parsed back
      whole, with nothing left over, if and only if its Content-Length declares its body (no such
      header counting as zero); and then every part of it is recovered. */
  lemma ResponseRoundTrip(r: Response)
    requires ' ' !in r.version && NoCrlf(r.version) && AllPrintable(r.headers)
    ensures var p := Parse(FRESH, NO_REQUEST, Printed(r));
            var q := Request(r.version, DecimalInt(r.statusCode), StatusMessage(r.statusCode),
                             Collected(map[], r.headers), r.body);
            && (p.result == Success && p.rest == "" <==> DeclaredLength(q) == Some(|r.body|))
            && (DeclaredLength(q) == Some(|r.body|) ==> p.request == q)
  {
    StatusWordsAreClean(r.statusCode);
    MessageRoundTrip(r.version, DecimalInt(r.statusCode), StatusMessage(r.statusCode), r.headers, r.body);
  }

  /** Setting Content-Length to the decimal of the body's size meets that condition, wherever the
      header sorts and however its name is capitalised, unless another header's name is the same. */
  lemma {:induction false} DecimalLengthAgrees(r: Response, i: nat)
    requires i < |r.headers| && DistinctNames(r.headers) && |r.body| < 0x1_0000_0000_0000_0000
    requires SameName(r.headers[i].0, "content-length") && r.headers[i].1 == Decimal(|r.body|)
    ensures DeclaredLength(Request("", "", "", Collected(map[], r.headers), r.body)) == Some(|r.body|)
  {
    HeadersComeBack(r.headers, "content-length");
    hide Stoul, Collected, SameName, DistinctNames;
    StoulOfDecimal(|r.body|);
  }

  // ---- The response object ------------------------------------------------------------------

  class HttpResponse {
    var version: string
    var statusCode: int
    var headers: Fields
    var body: string

    constructor ()
      ensures Value() == NEW_RESPONSE
      ensures version == "HTTP/1.1" && statusCode == 200 && headers == [] && body == ""
    {
      version, statusCode, headers, body := "HTTP/1.1", 200, [], "";
    }

    ghost function Value(): Response
      reads this
    {
      Response(version, statusCode, headers, body)
    }

    method SetVersion(v: string)
      modifies this
      ensures Value() == old(Value()).(version := v)
    {
      version := v;
    }

    method SetStatusCode(code: int)
      modifies this
      ensures Value() == old(Value()).(statusCode := code)
    {
      statusCode := code;
    }

    method SetHeader(key: string, value: string)
      modifies this
      ensures AsMap(headers) == old(AsMap(headers))[key := value]
      ensures Value() == old(Value()).(headers := WithHeader(old(headers), key, value))
    {
      headers := WithHeader(headers, key, value);
    }

    method SetBody(b: string)
      modifies this
      ensures Value() == old(Value()).(body := b)
    {
      body := b;
    }

    method Set(r: Response)
      modifies this
      ensures Value() == r
    {
      version, statusCode, headers, body := r.version, r.statusCode, r.headers, r.body;
    }

    method Reset()
      modifies this
      ensures Value() == BLANK_RESPONSE
      ensures version == "" && statusCode == 200 && headers == [] && body == ""
    {
      version, statusCode, headers, body := "", 200, [], "";
    }

    method ToString() returns (response: string)
      ensures response == Printed(Value())
    {
      response := version + " " + DecimalInt(statusCode) + " " + StatusMessage(statusCode) + "\r\n";
      ghost var start := response;
      var i := 0;
      while i < |headers|
        invariant i <= |headers|
        decreases |headers| - i
        invariant response + HeaderLines(headers[i..]) == start + HeaderLines(headers)
      {
        var (key, value) := headers[i];
        assert headers[i..][1..] == headers[i + 1..];
        var line := key + ": " + value + "\r\n";
        assert response + HeaderLines(headers[i..]) == (response + line) + HeaderLines(headers[i + 1..]);
        response := response + key + ": " + value + "\r\n";
        i := i + 1;
      }
      assert response + HeaderLines(headers[i..]) == response;
      ghost var lines := HeaderLines(headers);
      response := response + "\r\n";
      if body != "" {
        response := response + body;
      }
      assert response == start + lines + "\r\n" + body;
      assert start + lines + "\r\n" + body == start + (lines + ("\r\n" + body));
    }
  }
}
