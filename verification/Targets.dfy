/** Request targets: percent-decoding and the split of a target into a path and
    decoded query parameters (UrlDecode and ParseTarget of the server). */
module Targets {

  // ----- Searching and splitting -----

  /** First index of c in s at or after position `from`; |s| when there is none. */
  function Find(s: string, c: char, from: nat): (r: nat)
    requires from <= |s|
    ensures from <= r <= |s|
    ensures c !in s[from..r]
    ensures r < |s| ==> s[r] == c
    decreases |s| - from
  {
    if from == |s| || s[from] == c then from else Find(s, c, from + 1)
  }

  /** The pieces of s between occurrences of c; there is always at least one. */
  function SplitOn(s: string, c: char): (pieces: seq<string>)
    ensures pieces != []
    decreases |s|
  {
    var i := Find(s, c, 0);
    if i == |s| then [s] else [s[..i]] + SplitOn(s[i + 1..], c)
  }

  /** The pieces joined by single occurrences of c. */
  function JoinWith(pieces: seq<string>, c: char): string {
    if pieces == [] then ""
    else if |pieces| == 1 then pieces[0]
    else pieces[0] + [c] + JoinWith(pieces[1..], c)
  }

  lemma {:induction false} FindIs(s: string, c: char, from: nat, i: nat)
    requires from <= i <= |s| && c !in s[from..i] && (i < |s| ==> s[i] == c)
    ensures Find(s, c, from) == i
    decreases i - from
  {
    if from < i {
      assert s[from] in s[from..i];
      assert s[from..i][1..] == s[from + 1..i];
      FindIs(s, c, from + 1, i);
    }
  }

  /** One step of a split at a known first separator. */
  lemma SplitStep(s: string, c: char, i: nat)
    requires i <= |s| && c !in s[..i] && (i < |s| ==> s[i] == c)
    ensures i == |s| ==> SplitOn(s, c) == [s]
    ensures i < |s| ==> SplitOn(s, c) == [s[..i]] + SplitOn(s[i + 1..], c)
  {
    assert s[0..i] == s[..i];
    FindIs(s, c, 0, i);
  }

  /** Joining undoes splitting, so a split loses nothing. */
  lemma {:induction false} JoinOfSplit(s: string, c: char)
    ensures JoinWith(SplitOn(s, c), c) == s
    decreases |s|
  {
    var i := Find(s, c, 0);
    if i < |s| {
      var tail := SplitOn(s[i + 1..], c);
      JoinOfSplit(s[i + 1..], c);
      assert ([s[..i]] + tail)[1..] == tail;
      assert s == s[..i] + [c] + s[i + 1..];
    }
  }

  lemma ConcatSlices(a: string, c: char, b: string, i: nat)
    requires i <= |a|
    ensures (a + [c] + b)[..i] == a[..i]
    ensures i < |a| ==> (a + [c] + b)[i] == a[i] && (a + [c] + b)[i + 1..] == a[i + 1..] + [c] + b
    ensures i == |a| ==> (a + [c] + b)[i] == c && (a + [c] + b)[i + 1..] == b && a[..i] == a
  {
  }

  lemma PrependAssociates(x: string, a: seq<string>, b: seq<string>)
    ensures [x] + a + b == [x] + (a + b)
  {
  }

  /** Splitting distributes over a separator. */
  lemma {:induction false} SplitOfConcat(a: string, c: char, b: string)
    ensures SplitOn(a + [c] + b, c) == SplitOn(a, c) + SplitOn(b, c)
    decreases |a|
  {
    var i := Find(a, c, 0);
    assert a[..i] == a[0..i];
    ConcatSlices(a, c, b, i);
    SplitStep(a + [c] + b, c, i);
    if i < |a| {
      SplitOfConcat(a[i + 1..], c, b);
      PrependAssociates(a[..i], SplitOn(a[i + 1..], c), SplitOn(b, c));
    }
  }

  /** Splitting undoes joining when no piece holds the separator. */
  lemma {:induction false} SplitOfJoin(pieces: seq<string>, c: char)
    requires pieces != [] && forall p :: p in pieces ==> c !in p
    ensures SplitOn(JoinWith(pieces, c), c) == pieces
  {
    assert pieces[0] in pieces;
    FindIs(pieces[0], c, 0, |pieces[0]|);
    if |pieces| > 1 {
      SplitOfJoin(pieces[1..], c);
      SplitOfConcat(pieces[0], c, JoinWith(pieces[1..], c));
      assert pieces == [pieces[0]] + pieces[1..];
    }
  }

  /** No piece of a split holds the separator; with JoinOfSplit this pins the split down. */
  lemma {:induction false} SplitPiecesAvoid(s: string, c: char)
    ensures forall i :: 0 <= i < |SplitOn(s, c)| ==> c !in SplitOn(s, c)[i]
    decreases |s|
  {
    var i := Find(s, c, 0);
    assert s[0..i] == s[..i];
    if i == |s| {
      assert s[..i] == s;
    } else {
      SplitPiecesAvoid(s[i + 1..], c);
    }
  }

  lemma {:induction false} JoinOfConcat(a: seq<string>, b: seq<string>, c: char)
    requires a != [] && b != []
    ensures JoinWith(a + b, c) == JoinWith(a, c) + [c] + JoinWith(b, c)
  {
    assert (a + b)[1..] == a[1..] + b;
    if |a| > 1 {
      JoinOfConcat(a[1..], b, c);
      assert JoinWith(a + b, c) == a[0] + [c] + (JoinWith(a[1..], c) + [c] + JoinWith(b, c));
    } else {
      assert a[1..] + b == b;
    }
  }

  // ----- Percent-decoding -----

  predicate IsHexDigit(c: char) {
    '0' <= c <= '9' || 'a' <= c <= 'f' || 'A' <= c <= 'F'
  }

  function HexValue(c: char): (v: nat)
    requires IsHexDigit(c)
    ensures v < 16
  {
    if '0' <= c <= '9' then c as int - '0' as int
    else if 'a' <= c <= 'f' then c as int - 'a' as int + 10
    else c as int - 'A' as int + 10
  }

  /** s starts with a complete escape: a percent sign and two hex digits. */
  predicate IsEscape(s: string) {
    |s| >= 3 && s[0] == '%' && IsHexDigit(s[1]) && IsHexDigit(s[2])
  }

  /** The byte an escape stands for. */
  function EscapedByte(s: string): (c: char)
    requires IsEscape(s)
    ensures c as int == 16 * HexValue(s[1]) + HexValue(s[2])
  {
    (16 * HexValue(s[1]) + HexValue(s[2])) as char
  }

  /** Decoding, token by token. A malformed escape stands for itself. */
  function Decode(s: string): string {
    if s == "" then ""
    else if IsEscape(s) then [EscapedByte(s)] + Decode(s[3..])
    else if s[0] == '+' then " " + Decode(s[1..])
    else [s[0]] + Decode(s[1..])
  }

  /** One token of the decoding, appended to what is decoded already. */
  lemma DecodeAt(s: string, i: nat, out: string)
    requires i < |s|
    ensures var escape := s[i] == '%' && i + 2 < |s| && IsHexDigit(s[i + 1]) && IsHexDigit(s[i + 2]);
            out + Decode(s[i..])
            == if escape then out + [(16 * HexValue(s[i + 1]) + HexValue(s[i + 2])) as char] + Decode(s[i + 3..])
               else out + (if s[i] == '+' then " " else [s[i]]) + Decode(s[i + 1..])
  {
    var rest := s[i..];
    if IsEscape(rest) {
      assert rest[3..] == s[i + 3..];
      ConcatAssociates(out, [EscapedByte(rest)], Decode(s[i + 3..]));
    } else {
      assert rest[1..] == s[i + 1..];
      ConcatAssociates(out, if s[i] == '+' then " " else [s[i]], Decode(s[i + 1..]));
    }
  }

  lemma ConcatAssociates(a: string, b: string, c: string)
    ensures a + (b + c) == a + b + c
  {
  }

  /** The server's decoding loop. */
  method UrlDecode(input: string) returns (out: string)
    ensures out == Decode(input)
  {
    out := "";
    var i := 0;
    while i < |input|
      invariant 0 <= i <= |input|
      invariant out + Decode(input[i..]) == Decode(input)
    {
      DecodeAt(input, i, out);
      if input[i] == '%' && i + 2 < |input| && IsHexDigit(input[i + 1]) && IsHexDigit(input[i + 2]) {
        out := out + [(16 * HexValue(input[i + 1]) + HexValue(input[i + 2])) as char];
        i := i + 3;
      } else {
        out := out + (if input[i] == '+' then " " else [input[i]]);
        i := i + 1;
      }
    }
  }

  /** No plus sign and no complete escape anywhere. */
  ghost predicate Plain(s: string) {
    forall i :: 0 <= i < |s| ==> s[i] != '+' && !IsEscape(s[i..])
  }

  lemma {:induction false} DecodeShrinks(s: string)
    ensures |Decode(s)| <= |s|
    decreases |s|
  {
    if s != "" {
      DecodeShrinks(if IsEscape(s) then s[3..] else s[1..]);
    }
  }

  /** Decoding leaves a string alone exactly when it holds no plus sign and no escape. */
  lemma {:induction false} DecodeFixesExactlyPlain(s: string)
    ensures Decode(s) == s <==> Plain(s)
    decreases |s|
  {
    if s == "" {
    } else if IsEscape(s) {
      DecodeShrinks(s[3..]);
      assert |Decode(s)| < |s|;
      assert s[0..] == s;
      assert !Plain(s);
    } else if s[0] == '+' {
      assert Decode(s)[0] == ' ';
    } else {
      DecodeFixesExactlyPlain(s[1..]);
      assert s == [s[0]] + s[1..];
      assert Decode(s)[1..] == Decode(s[1..]);
      PlainTail(s);
    }
  }

  lemma PlainTail(s: string)
    requires s != "" && s[0] != '+' && !IsEscape(s)
    ensures Plain(s) <==> Plain(s[1..])
  {
    assert s[0..] == s;
    forall i | 0 <= i < |s[1..]| ensures s[1..][i] == s[i + 1] && s[1..][i..] == s[i + 1..] {
    }
    if Plain(s[1..]) {
      forall i | 0 <= i < |s| ensures s[i] != '+' && !IsEscape(s[i..]) {
        if i > 0 {
          assert s[1..][i - 1..] == s[i..] && s[1..][i - 1] == s[i];
        }
      }
    }
  }

  /** The hex digit worth d, in either case. */
  function Digit(d: nat, upper: bool): char
    requires d < 16
  {
    if d < 10 then "0123456789"[d] else if upper then "ABCDEF"[d - 10] else "abcdef"[d - 10]
  }

  lemma DigitIsWorth(d: nat, upper: bool)
    requires d < 16
    ensures IsHexDigit(Digit(d, upper)) && HexValue(Digit(d, upper)) == d
  {
  }

  /** An escape decodes to the byte its two digits spell, each in either case. */
  lemma EscapeDecodes(hi: nat, lo: nat, up1: bool, up2: bool, rest: string)
    requires hi < 16 && lo < 16
    ensures Decode(['%', Digit(hi, up1), Digit(lo, up2)] + rest) == [(16 * hi + lo) as char] + Decode(rest)
  {
    DigitIsWorth(hi, up1);
    DigitIsWorth(lo, up2);
    EscapeFirst(Digit(hi, up1), Digit(lo, up2), rest);
  }

  lemma EscapeFirst(h: char, l: char, rest: string)
    requires IsHexDigit(h) && IsHexDigit(l)
    ensures Decode(['%', h, l] + rest) == [(16 * HexValue(h) + HexValue(l)) as char] + Decode(rest)
  {
    assert (['%', h, l] + rest)[3..] == rest;
  }

  // ----- Percent-encoding, the client's side of the query grammar -----

  /** Every character is a byte, as in a std::string. */
  ghost predicate Octets(s: string) {
    forall i :: 0 <= i < |s| ==> s[i] as int < 256
  }

  /** The characters that cannot stand for themselves inside a key or a value. */
  const MUST_ESCAPE: set<char> := {'%', '+', '&', '='}

  function HexDigit(v: nat): (c: char)
    requires v < 16
    ensures IsHexDigit(c) && HexValue(c) == v
  {
    if v < 10 then (v + '0' as int) as char else (v - 10 + 'A' as int) as char
  }

  function EscapeByte(c: char): (e: string)
    requires c as int < 256
    ensures IsEscape(e) && |e| == 3 && EscapedByte(e) == c
  {
    ['%', HexDigit(c as int / 16), HexDigit(c as int % 16)]
  }

  /** Percent-encoding (section 2.1 of RFC 3986) that leaves the characters of `keep` as they are. */
  function Encode(s: string, keep: set<char>): string
    requires Octets(s)
  {
    if s == "" then ""
    else (if s[0] in keep then [s[0]] else EscapeByte(s[0])) + Encode(s[1..], keep)
  }

  lemma {:induction false} EncodeAvoids(s: string, keep: set<char>, c: char)
    requires Octets(s) && c !in keep && !IsHexDigit(c) && c != '%'
    ensures c !in Encode(s, keep)
    decreases |s|
  {
    if s != "" {
      EncodeAvoids(s[1..], keep, c);
    }
  }

  /** Decoding undoes encoding, whatever characters the encoder left alone. */
  lemma {:induction false} DecodeOfEncode(s: string, keep: set<char>)
    requires Octets(s) && keep !! MUST_ESCAPE
    ensures Decode(Encode(s, keep)) == s
    decreases |s|
  {
    if s != "" {
      var e := Encode(s, keep);
      var rest := Encode(s[1..], keep);
      DecodeOfEncode(s[1..], keep);
      if s[0] in keep {
        assert s[0] !in MUST_ESCAPE;
        assert e[0] == s[0] && e[1..] == rest && !IsEscape(e) && s[0] != '+';
      } else {
        var escape := EscapeByte(s[0]);
        assert e[1] == escape[1] && e[2] == escape[2] && e[3..] == rest;
        assert IsEscape(e) && EscapedByte(e) == s[0];
      }
      assert s == [s[0]] + s[1..];
    }
  }

  // ----- Query parameters -----

  type Params = map<string, string>

  function KeyOf(piece: string): string {
    Decode(piece[..Find(piece, '=', 0)])
  }

  function ValueOf(piece: string): string {
    var eq := Find(piece, '=', 0);
    if eq == |piece| then "" else Decode(piece[eq + 1..])
  }

  function BindOne(piece: string, m: Params): Params {
    if piece == "" then m else m[KeyOf(piece) := ValueOf(piece)]
  }

  /** The non-empty pieces bound in order on top of m: a later duplicate wins. */
  function Bind(pieces: seq<string>, m: Params): Params {
    if pieces == [] then m
    else Bind(pieces[1..], BindOne(pieces[0], m))
  }

  function PathOf(target: string): string {
    target[..Find(target, '?', 0)]
  }

  /** The parameters a target adds to m: none without a question mark. */
  function ParamsOf(target: string, m: Params): Params {
    var q := Find(target, '?', 0);
    if q == |target| then m else Bind(SplitOn(target[q + 1..], '&'), m)
  }

  lemma SplitTail(rest: string, n: nat)
    requires n < |rest| && '&' !in rest[..n] && rest[n] == '&'
    ensures SplitOn(rest, '&') == [rest[..n]] + SplitOn(rest[n + 1..], '&')
  {
    SplitStep(rest, '&', n);
  }

  lemma SplitWhole(rest: string)
    requires '&' !in rest
    ensures SplitOn(rest, '&') == [rest]
  {
    assert rest[..|rest|] == rest;
    SplitStep(rest, '&', |rest|);
  }

  lemma SplitAtNext(query: string, start: nat, end: nat)
    requires start <= end <= |query| && '&' !in query[start..end] && (end < |query| ==> query[end] == '&')
    ensures SplitOn(query[start..], '&')
            == [query[start..end]] + if end == |query| then [] else SplitOn(query[end + 1..], '&')
  {
    var rest, n := query[start..], end - start;
    assert rest[..n] == query[start..end];
    if end == |query| {
      assert rest == query[start..end];
      SplitWhole(rest);
    } else {
      SplitTail(rest, n);
      assert rest[n + 1..] == query[end + 1..];
    }
  }

  lemma BindFirst(piece: string, rest: seq<string>, m: Params)
    ensures Bind([piece] + rest, m) == Bind(rest, BindOne(piece, m))
  {
    assert ([piece] + rest)[1..] == rest;
  }

  /** What one round of the loop binds: the piece up to the next ampersand. */
  lemma BindStep(query: string, start: nat, end: nat, m: Params)
    requires start <= |query| && end == Find(query, '&', start)
    ensures var m' := BindOne(query[start..end], m);
            Bind(SplitOn(query[start..], '&'), m)
            == if end == |query| then m' else Bind(SplitOn(query[end + 1..], '&'), m')
  {
    SplitAtNext(query, start, end);
    BindFirst(query[start..end], if end == |query| then [] else SplitOn(query[end + 1..], '&'), m);
  }

  /** The parameters bound from an index on, piece by piece. */
  function BindFrom(query: string, start: nat, m: Params): Params
    requires start <= |query| + 1
    decreases |query| + 1 - start
  {
    if start > |query| then m
    else
      var end := Find(query, '&', start);
      BindFrom(query, end + 1, BindOne(query[start..end], m))
  }

  lemma BindFromStep(query: string, start: nat, end: nat, m: Params)
    requires start <= |query| && end == Find(query, '&', start)
    ensures BindFrom(query, start, m) == BindFrom(query, end + 1, BindOne(query[start..end], m))
  {
  }

  lemma BindFromEnd(query: string, m: Params)
    ensures BindFrom(query, |query| + 1, m) == m
  {
  }

  ghost predicate BindsFrom(query: string, start: nat, m: Params)
    requires start <= |query|
  {
    BindFrom(query, start, m) == Bind(SplitOn(query[start..], '&'), m)
  }

  lemma LastRound(query: string, start: nat, m: Params)
    requires start <= |query| && Find(query, '&', start) == |query|
    ensures BindsFrom(query, start, m)
  {
    BindStep(query, start, |query|, m);
    BindFromStep(query, start, |query|, m);
    BindFromEnd(query, BindOne(query[start..], m));
    assert query[start..|query|] == query[start..];
  }

  lemma OneRound(query: string, start: nat, end: nat, m: Params)
    requires start <= |query| && end == Find(query, '&', start) && end < |query|
    requires BindsFrom(query, end + 1, BindOne(query[start..end], m))
    ensures BindsFrom(query, start, m)
  {
    BindStep(query, start, end, m);
    BindFromStep(query, start, end, m);
  }

  lemma {:induction false} BindFromIsBind(query: string, start: nat, m: Params)
    requires start <= |query|
    ensures BindsFrom(query, start, m)
    decreases |query| - start
  {
    var end := Find(query, '&', start);
    if end < |query| {
      BindFromIsBind(query, end + 1, BindOne(query[start..end], m));
      OneRound(query, start, end, m);
    } else {
      LastRound(query, start, m);
    }
  }

  /** The body of the loop: one non-empty piece split at its first equals sign. */
  method BindPair(pair: string, m: Params) returns (m': Params)
    ensures m' == m[KeyOf(pair) := ValueOf(pair)]
  {
    var eq := Find(pair, '=', 0);
    var key := UrlDecode(pair[..eq]);
    var value := "";
    if eq != |pair| {
      value := UrlDecode(pair[eq + 1..]);
    }
    m' := m[key := value];
  }

  /** The server's index loop over the query. */
  method ParseQuery(query: string, initial: Params) returns (parameters: Params)
    ensures parameters == Bind(SplitOn(query, '&'), initial)
  {
    parameters := initial;
    var start := 0;
    while start <= |query|
      invariant 0 <= start <= |query| + 1
      invariant BindFrom(query, start, parameters) == BindFrom(query, 0, initial)
      decreases |query| + 1 - start
    {
      var end := Find(query, '&', start);
      var pair := query[start..end];
      if pair != "" {
        parameters := BindPair(pair, parameters);
      }
      start := end + 1;
    }
    BindFromIsBind(query, 0, initial);
    assert query[0..] == query;
  }

  lemma PathEndsAtQuery(target: string, m: Params)
    ensures var path := PathOf(target);
            && path <= target && '?' !in path && (path == target || target[|path|] == '?')
            && ('?' in target ==>
                  |path| < |target| && ParamsOf(target, m) == Bind(SplitOn(target[|path| + 1..], '&'), m))
            && ('?' !in target ==> path == target && ParamsOf(target, m) == m)
  {
    var q := Find(target, '?', 0);
    assert target[0..q] == target[..q];
    if q == |target| {
      assert target[..q] == target;
    }
  }

  method ParseTarget(target: string, initial: Params) returns (path: string, parameters: Params)
    ensures path == PathOf(target)
    ensures parameters == ParamsOf(target, initial)
    ensures path <= target && '?' !in path && (path == target || target[|path|] == '?')
    ensures '?' !in target ==> path == target && parameters == initial
    ensures '?' in target ==> parameters == Bind(SplitOn(target[|path| + 1..], '&'), initial)
  {
    PathEndsAtQuery(target, initial);
    var queryPos := Find(target, '?', 0);
    path := target[..queryPos];
    parameters := initial;
    if queryPos != |target| {
      parameters := ParseQuery(target[queryPos + 1..], initial);
    }
  }

  /** A piece names the decoding of what comes before its first equals sign, and gives it the decoding of
      what comes after, or the empty string. */
  lemma PieceNamesAndGives(k: string, v: string)
    requires '=' !in k
    ensures KeyOf(k) == Decode(k) && ValueOf(k) == ""
    ensures KeyOf(k + "=" + v) == Decode(k) && ValueOf(k + "=" + v) == Decode(v)
  {
    FindIs(k, '=', 0, |k|);
    assert k[..|k|] == k;
    var piece := k + "=" + v;
    assert piece[0..|k|] == k && piece[|k|] == '=';
    FindIs(piece, '=', 0, |k|);
    assert piece[..|k|] == k && piece[|k| + 1..] == v;
  }

  /** Some piece from index `from` on binds key k. */
  ghost predicate Binds(pieces: seq<string>, from: nat, k: string) {
    exists i :: from <= i < |pieces| && pieces[i] != "" && KeyOf(pieces[i]) == k
  }

  /** What a query means, key by key: a key is bound exactly when some non-empty piece
      names it or it was there before. */
  lemma {:induction false} BoundKeys(pieces: seq<string>, m: Params, k: string)
    ensures k in Bind(pieces, m) <==> k in m || Binds(pieces, 0, k)
    decreases |pieces|
  {
    if pieces != [] {
      var p := pieces[0];
      var rest := pieces[1..];
      var m' := BindOne(p, m);
      BoundKeys(rest, m', k);
      assert forall i :: 0 <= i < |rest| ==> rest[i] == pieces[i + 1];
      if Binds(rest, 0, k) {
        var i :| 0 <= i < |rest| && rest[i] != "" && KeyOf(rest[i]) == k;
        assert pieces[i + 1] != "" && KeyOf(pieces[i + 1]) == k;
      }
      if Binds(pieces, 0, k) {
        var i :| 0 <= i < |pieces| && pieces[i] != "" && KeyOf(pieces[i]) == k;
        if i > 0 {
          assert rest[i - 1] == pieces[i];
        }
      }
    }
  }

  /** The last non-empty piece naming a key gives its value. */
  lemma {:induction false} LastPieceWins(pieces: seq<string>, m: Params, i: nat)
    requires i < |pieces| && pieces[i] != "" && !Binds(pieces, i + 1, KeyOf(pieces[i]))
    ensures KeyOf(pieces[i]) in Bind(pieces, m)
    ensures Bind(pieces, m)[KeyOf(pieces[i])] == ValueOf(pieces[i])
    decreases |pieces|
  {
    var p := pieces[0];
    var rest := pieces[1..];
    var m' := BindOne(p, m);
    if i > 0 {
      assert rest[i - 1] == pieces[i];
      assert forall j :: i <= j < |rest| ==> rest[j] == pieces[j + 1];
      LastPieceWins(rest, m', i - 1);
    } else {
      UnboundKeptValue(rest, m', KeyOf(p), pieces);
    }
  }

  lemma {:induction false} UnboundKeptValue(rest: seq<string>, m: Params, k: string, pieces: seq<string>)
    requires pieces != [] && rest == pieces[1..] && !Binds(pieces, 1, k) && k in m
    ensures k in Bind(rest, m) && Bind(rest, m)[k] == m[k]
    decreases |rest|
  {
    if rest != [] {
      assert rest[0] == pieces[1];
      assert forall j :: 1 <= j < |rest| ==> rest[j] == pieces[j + 1];
      UnboundKeptValue(rest[1..], if rest[0] == "" then m else m[KeyOf(rest[0]) := ValueOf(rest[0])], k, rest);
    }
  }

  // ----- The query round trip -----

  type Pairs = seq<(string, string)>

  ghost predicate OctetPairs(pairs: Pairs) {
    forall i :: 0 <= i < |pairs| ==> Octets(pairs[i].0) && Octets(pairs[i].1)
  }

  function EncodePairs(pairs: Pairs, keep: set<char>): seq<string>
    requires OctetPairs(pairs)
  {
    if pairs == [] then []
    else [Encode(pairs[0].0, keep) + "=" + Encode(pairs[0].1, keep)] + EncodePairs(pairs[1..], keep)
  }

  /** The target a client builds for a path and a list of parameters. */
  function BuildTarget(path: string, pairs: Pairs, keep: set<char>): string
    requires OctetPairs(pairs)
  {
    path + "?" + JoinWith(EncodePairs(pairs, keep), '&')
  }

  /** The pairs as a map, a later duplicate winning. */
  function MapOf(pairs: Pairs, m: Params): Params {
    if pairs == [] then m else MapOf(pairs[1..], m[pairs[0].0 := pairs[0].1])
  }

  lemma EncodedPiece(k: string, v: string, keep: set<char>)
    requires Octets(k) && Octets(v) && keep !! MUST_ESCAPE
    ensures var piece := Encode(k, keep) + "=" + Encode(v, keep);
            piece != "" && '&' !in piece && KeyOf(piece) == k && ValueOf(piece) == v
  {
    assert '=' in MUST_ESCAPE && '&' in MUST_ESCAPE;
    var ek, ev := Encode(k, keep), Encode(v, keep);
    var piece := ek + "=" + ev;
    EncodeAvoids(k, keep, '=');
    EncodeAvoids(k, keep, '&');
    EncodeAvoids(v, keep, '&');
    assert piece[0..|ek|] == ek;
    FindIs(piece, '=', 0, |ek|);
    assert piece[..|ek|] == ek && piece[|ek| + 1..] == ev;
    DecodeOfEncode(k, keep);
    DecodeOfEncode(v, keep);
  }

  lemma {:induction false} BindOfEncodedPairs(pairs: Pairs, keep: set<char>, m: Params)
    requires OctetPairs(pairs) && keep !! MUST_ESCAPE
    ensures Bind(EncodePairs(pairs, keep), m) == MapOf(pairs, m)
    ensures forall p :: p in EncodePairs(pairs, keep) ==> '&' !in p
    decreases |pairs|
  {
    if pairs != [] {
      var k, v := pairs[0].0, pairs[0].1;
      EncodedPiece(k, v, keep);
      BindOfEncodedPairs(pairs[1..], keep, m[k := v]);
      assert EncodePairs(pairs, keep)[1..] == EncodePairs(pairs[1..], keep);
    }
  }

  /** Round trip: the server reads back exactly the path and the parameters, for every
      path without a question mark, every list of byte-string pairs (with or without
      duplicate keys) and every admissible choice of characters left unescaped. */
  lemma QueryRoundTrip(path: string, pairs: Pairs, keep: set<char>)
    requires '?' !in path && OctetPairs(pairs) && keep !! MUST_ESCAPE
    ensures PathOf(BuildTarget(path, pairs, keep)) == path
    ensures ParamsOf(BuildTarget(path, pairs, keep), map[]) == MapOf(pairs, map[])
  {
    var target := BuildTarget(path, pairs, keep);
    var pieces := EncodePairs(pairs, keep);
    var query := JoinWith(pieces, '&');
    assert target[0..|path|] == path;
    FindIs(target, '?', 0, |path|);
    assert target[..|path|] == path && target[|path| + 1..] == query;
    BindOfEncodedPairs(pairs, keep, map[]);
    if pairs == [] {
      assert query == "" && SplitOn("", '&') == [""];
      assert Bind([""], map[]) == Bind([], map[]);
    } else {
      SplitOfJoin(pieces, '&');
    }
  }

  lemma {:induction false} MapOfDistinct(pairs: Pairs, m: Params, base: Params)
    requires forall i, j :: 0 <= i < j < |pairs| ==> pairs[i].0 != pairs[j].0
    requires forall k :: k in m <==> k in base || exists i :: 0 <= i < |pairs| && pairs[i].0 == k
    requires forall i :: 0 <= i < |pairs| ==> pairs[i].0 in m && m[pairs[i].0] == pairs[i].1
    requires forall k :: k in base && (forall i :: 0 <= i < |pairs| ==> pairs[i].0 != k) ==> base[k] == m[k]
    ensures MapOf(pairs, base) == m
    decreases |pairs|
  {
    if pairs == [] {
      assert base == m;
    } else {
      var rest := pairs[1..];
      var base' := base[pairs[0].0 := pairs[0].1];
      assert forall i :: 0 <= i < |rest| ==> rest[i] == pairs[i + 1];
      forall k ensures k in m <==> k in base' || exists i :: 0 <= i < |rest| && rest[i].0 == k {
        if k in m && k !in base' {
          var i :| 0 <= i < |pairs| && pairs[i].0 == k;
          assert rest[i - 1].0 == k;
        }
      }
      forall k | k in base' && (forall i :: 0 <= i < |rest| ==> rest[i].0 != k) ensures base'[k] == m[k] {
        if k != pairs[0].0 {
          forall i | 0 <= i < |pairs| ensures pairs[i].0 != k {
            if i > 0 { assert pairs[i] == rest[i - 1]; }
          }
        }
      }
      MapOfDistinct(rest, m, base');
    }
  }

  /** The round trip for a parameter map, listed in any order. */
  lemma ParameterMapRoundTrip(path: string, m: Params, pairs: Pairs, keep: set<char>)
    requires '?' !in path && OctetPairs(pairs) && keep !! MUST_ESCAPE
    requires forall i, j :: 0 <= i < j < |pairs| ==> pairs[i].0 != pairs[j].0
    requires forall k :: k in m <==> exists i :: 0 <= i < |pairs| && pairs[i].0 == k
    requires forall i :: 0 <= i < |pairs| ==> pairs[i].0 in m && m[pairs[i].0] == pairs[i].1
    ensures PathOf(BuildTarget(path, pairs, keep)) == path
    ensures ParamsOf(BuildTarget(path, pairs, keep), map[]) == m
  {
    QueryRoundTrip(path, pairs, keep);
    MapOfDistinct(pairs, m, map[]);
  }
}
