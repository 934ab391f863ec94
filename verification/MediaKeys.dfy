/** The text form of media keys and of other decimal-suffixed identifiers. */
module MediaKeys {
  import opened Types

  // ---------- decimal numbers ----------

  predicate IsDigit(c: char) {
    '0' <= c <= '9'
  }

  function DigitChar(d: nat): char
    requires d < 10
  {
    '0' + d as char
  }

  function DigitValue(c: char): nat
    requires IsDigit(c)
  {
    (c - '0') as nat
  }

  function NatText(n: nat): string {
    if n < 10 then [DigitChar(n)] else NatText(n / 10) + [DigitChar(n % 10)]
  }

  /** `%d` of Go's fmt. */
  function IntText(n: int): string {
    if n < 0 then "-" + NatText(-n) else NatText(n)
  }

  predicate AllDigits(s: string) {
    forall i :: 0 <= i < |s| ==> IsDigit(s[i])
  }

  function NatValue(s: string): nat
    requires AllDigits(s)
  {
    if s == "" then 0 else 10 * NatValue(s[..|s| - 1]) + DigitValue(s[|s| - 1])
  }

  lemma {:induction false} NatTextValue(n: nat)
    ensures NatText(n) != "" && AllDigits(NatText(n)) && NatValue(NatText(n)) == n
  {
    if n < 10 {
      assert NatText(n)[..0] == "";
    } else {
      NatTextValue(n / 10);
      assert NatText(n)[..|NatText(n)| - 1] == NatText(n / 10);
    }
  }

  /** A decimal numeral has no separator in it and determines its number. */
  lemma IntTextShape(n: int)
    ensures IntText(n) != ""
    ensures '|' !in IntText(n) && ':' !in IntText(n) && ' ' !in IntText(n)
  {
    NatTextValue(if n < 0 then -n else n);
    if n < 0 {
      assert IntText(n) == "-" + NatText(-n);
    }
  }

  lemma IntTextInjective(m: int, n: int)
    requires IntText(m) == IntText(n)
    ensures m == n
  {
    NatTextValue(if m < 0 then -m else m);
    NatTextValue(if n < 0 then -n else n);
    if m < 0 {
      assert IntText(m)[0] == '-' && IntText(m)[1..] == NatText(-m);
    }
    if n < 0 {
      assert IntText(n)[0] == '-' && IntText(n)[1..] == NatText(-n);
    }
  }

  /** Splitting at the last separator is unambiguous when what follows it has none. */
  lemma LastFieldUnique(a: string, b: string, x: string, y: string, sep: char)
    requires sep !in x && sep !in y
    requires a + [sep] + x == b + [sep] + y
    ensures a == b && x == y
  {
    var s, t := a + [sep] + x, b + [sep] + y;
    assert s[|a|] == sep && t[|b|] == sep;
    assert forall i :: |a| < i < |s| ==> s[i] == x[i - |a| - 1] && s[i] != sep;
    assert forall i :: |b| < i < |t| ==> t[i] == y[i - |b| - 1] && t[i] != sep;
    assert a == s[..|a|] && b == t[..|b|];
    assert x == s[|a| + 1..] && y == t[|b| + 1..];
  }

  // ---------- encodeMediaKey ----------

  function Encode(k: MediaKey): string {
    k.mediaType + "|" + IntText(k.tmdb) + "|" + IntText(k.tvdb) + "|" + IntText(k.season) + "|" + IntText(k.episode)
  }

  /** Distinct keys never overwrite each other on disk, whatever their type text contains. */
  lemma EncodeInjective(k: MediaKey, l: MediaKey)
    requires Encode(k) == Encode(l)
    ensures k == l
  {
    IntTextShape(k.tmdb); IntTextShape(k.tvdb); IntTextShape(k.season); IntTextShape(k.episode);
    IntTextShape(l.tmdb); IntTextShape(l.tvdb); IntTextShape(l.season); IntTextShape(l.episode);
    var k1 := k.mediaType + "|" + IntText(k.tmdb);
    var l1 := l.mediaType + "|" + IntText(l.tmdb);
    var k2 := k1 + "|" + IntText(k.tvdb);
    var l2 := l1 + "|" + IntText(l.tvdb);
    var k3 := k2 + "|" + IntText(k.season);
    var l3 := l2 + "|" + IntText(l.season);
    LastFieldUnique(k3, l3, IntText(k.episode), IntText(l.episode), '|');
    LastFieldUnique(k2, l2, IntText(k.season), IntText(l.season), '|');
    LastFieldUnique(k1, l1, IntText(k.tvdb), IntText(l.tvdb), '|');
    LastFieldUnique(k.mediaType, l.mediaType, IntText(k.tmdb), IntText(l.tmdb), '|');
    IntTextInjective(k.tmdb, l.tmdb); IntTextInjective(k.tvdb, l.tvdb);
    IntTextInjective(k.season, l.season); IntTextInjective(k.episode, l.episode);
  }

  // ---------- decodeMediaKey ----------

  /** Index of the first `c` in `s`, or `|s|`. */
  function IndexOf(s: string, c: char): (i: nat)
    ensures i <= |s|
    ensures i < |s| ==> s[i] == c
    ensures forall j :: 0 <= j < i ==> s[j] != c
  {
    if s == "" || s[0] == c then 0 else 1 + IndexOf(s[1..], c)
  }

  /** strings.SplitN(s, "|", n): at most `n` parts, the last one unsplit. */
  function SplitN(s: string, n: nat): (parts: seq<string>)
    requires n >= 1
    ensures 1 <= |parts| <= n
    decreases n
  {
    var i := IndexOf(s, '|');
    if n == 1 || i == |s| then [s] else [s[..i]] + SplitN(s[i + 1..], n - 1)
  }

  const INT_MIN: int := -0x8000_0000_0000_0000
  const INT_MAX: int := 0x7fff_ffff_ffff_ffff

  /** The values a Go `int` field can hold. */
  predicate IsInt(n: int) {
    INT_MIN <= n <= INT_MAX
  }

  function SkipBlanks(s: string): string {
    if s != "" && s[0] == ' ' then SkipBlanks(s[1..]) else s
  }

  function DigitRun(s: string): (n: nat)
    ensures n <= |s|
    ensures forall i :: 0 <= i < n ==> IsDigit(s[i])
    ensures n < |s| ==> !IsDigit(s[n])
  {
    if s == "" || !IsDigit(s[0]) then 0 else 1 + DigitRun(s[1..])
  }

  /** One `%d` verb of fmt.Sscanf: the number read and the input left, or None on a scan error. */
  function ScanInt(input: string): Option<(int, string)> {
    var s := SkipBlanks(input);
    if s == "" then None
    else if s[0] == '-' then ScanNumber(s[1..], true)
    else if s[0] == '+' then ScanNumber(s[1..], false)
    else ScanNumber(s, false)
  }

  function ScanNumber(body: string, negative: bool): Option<(int, string)> {
    var n := DigitRun(body);
    if n == 0 then None
    else
      var magnitude: int := NatValue(body[..n]);
      var v := if negative then -magnitude else magnitude;
      if IsInt(v) then Some((v, body[n..])) else None
  }

  /** The rest of the format `%d %d ...`: each further number needs a blank before it; input may be left over. */
  function ScanMore(rest: string, count: nat): Option<seq<int>>
    decreases count
  {
    if count == 0 then Some([])
    else if rest == "" || rest[0] != ' ' then None
    else
      match ScanInt(rest)
      case None => None
      case Some((v, left)) =>
        match ScanMore(left, count - 1)
        case None => None
        case Some(vs) => Some([v] + vs)
  }

  function Scan4(s: string): Option<seq<int>> {
    match ScanInt(s)
    case None => None
    case Some((v, left)) =>
      match ScanMore(left, 3)
      case None => None
      case Some(vs) => Some([v] + vs)
  }

  lemma ScanMoreLength(rest: string, count: nat)
    ensures ScanMore(rest, count).Some? ==>
              |ScanMore(rest, count).value| == count && forall v :: v in ScanMore(rest, count).value ==> IsInt(v)
    decreases count
  {
    if count > 0 && rest != "" && rest[0] == ' ' && ScanInt(rest).Some? {
      ScanMoreLength(ScanInt(rest).value.1, count - 1);
    }
  }

  lemma Scan4Length(s: string)
    ensures Scan4(s).Some? ==> |Scan4(s).value| == 4 && forall v :: v in Scan4(s).value ==> IsInt(v)
  {
    hide ScanMore;
    if ScanInt(s).Some? { ScanMoreLength(ScanInt(s).value.1, 3); }
  }

  function Decode(s: string): Option<MediaKey> {
    var parts := SplitN(s, 5);
    if |parts| != 5 then None
    else
      var joined := parts[1] + " " + parts[2] + " " + parts[3] + " " + parts[4];
      match Scan4(joined)
      case None => None
      case Some(vs) =>
        Scan4Length(joined);
        Some(MediaKey(parts[0], vs[0], vs[1], vs[2], vs[3]))
  }

  predicate Fits(k: MediaKey) {
    IsInt(k.tmdb) && IsInt(k.tvdb) && IsInt(k.season) && IsInt(k.episode)
  }

  /** Keys whose text form reads back as themselves. */
  predicate Codable(k: MediaKey) {
    '|' !in k.mediaType && Fits(k)
  }

  lemma IndexOfField(field: string, rest: string)
    requires '|' !in field
    ensures IndexOf(field + "|" + rest, '|') == |field|
  {
    var s := field + "|" + rest;
    assert s[|field|] == '|';
    assert forall j :: 0 <= j < |field| ==> s[j] == field[j] && s[j] != '|';
  }

  lemma SplitField(field: string, rest: string, n: nat, parts: seq<string>)
    requires '|' !in field && n >= 2 && SplitN(rest, n - 1) == parts
    ensures SplitN(field + "|" + rest, n) == [field] + parts
  {
    IndexOfField(field, rest);
    var s := field + "|" + rest;
    assert s[..|field|] == field && s[|field| + 1..] == rest;
  }

  /** Five fields grouped from the left are the same text grouped from the right. */
  lemma Regroup(sep: string, a: string, b: string, c: string, d: string)
    ensures a + sep + b + sep + c + sep + d == a + sep + (b + sep + (c + sep + d))
  {
    assert a + sep + b + sep + c + sep + d == (a + sep + b + sep) + (c + sep + d);
    var tail := c + sep + d;
    assert (a + sep + b + sep) + tail == a + sep + (b + sep + tail);
  }

  lemma SplitFive(a: string, b: string, c: string, d: string, e: string)
    requires '|' !in a && '|' !in b && '|' !in c && '|' !in d && '|' !in e
    ensures SplitN(a + "|" + b + "|" + c + "|" + d + "|" + e, 5) == [a, b, c, d, e]
  {
    Regroup("|", a + "|" + b, c, d, e);
    RegroupFirst("|", a, b, c + "|" + (d + "|" + e));
    SplitNested(a, b, c, d, e);
  }

  lemma RegroupFirst(sep: string, a: string, b: string, tail: string)
    ensures a + sep + b + sep + tail == a + sep + (b + sep + tail)
  {
  }

  lemma SplitTwo(a: string, b: string, rest: string, n: nat, parts: seq<string>)
    requires '|' !in a && '|' !in b && n >= 3 && SplitN(rest, n - 2) == parts
    ensures SplitN(a + "|" + (b + "|" + rest), n) == [a, b] + parts
  {
    SplitField(b, rest, n - 1, parts);
    SplitField(a, b + "|" + rest, n, [b] + parts);
    assert [a] + ([b] + parts) == [a, b] + parts;
  }

  lemma SplitNested(a: string, b: string, c: string, d: string, e: string)
    requires '|' !in a && '|' !in b && '|' !in c && '|' !in d && '|' !in e
    ensures SplitN(a + "|" + (b + "|" + (c + "|" + (d + "|" + e))), 5) == [a, b, c, d, e]
  {
    assert SplitN(e, 1) == [e];
    SplitTwo(c, d, e, 3, [e]);
    var tail := c + "|" + (d + "|" + e);
    assert SplitN(tail, 3) == [c, d, e];
    SplitTwo(a, b, tail, 5, [c, d, e]);
  }

  lemma DigitRunExact(s: string, rest: string)
    requires AllDigits(s) && (rest == "" || !IsDigit(rest[0]))
    ensures DigitRun(s + rest) == |s|
  {
    var t := s + rest;
    assert forall i :: 0 <= i < |s| ==> t[i] == s[i] && IsDigit(t[i]);
    assert rest != "" ==> t[|s|] == rest[0];
  }

  lemma ScanDigits(digits: string, rest: string, negative: bool)
    requires digits != "" && AllDigits(digits) && (rest == "" || rest[0] == ' ')
    ensures var v: int := NatValue(digits); var n := if negative then -v else v;
            IsInt(n) ==> ScanNumber(digits + rest, negative) == Some((n, rest))
  {
    DigitRunExact(digits, rest);
    var body := digits + rest;
    assert body[..|digits|] == digits && body[|digits|..] == rest;
  }

  /** What `%d` prints, `%d` reads back, with or without a blank before it. */
  lemma ScanPrinted(n: int, rest: string)
    requires IsInt(n) && (rest == "" || rest[0] == ' ')
    ensures ScanInt(IntText(n) + rest) == Some((n, rest))
    ensures ScanInt(" " + (IntText(n) + rest)) == Some((n, rest))
  {
    var magnitude := if n < 0 then -n else n;
    NatTextValue(magnitude);
    ScanDigits(NatText(magnitude), rest, n < 0);
    var s := IntText(n) + rest;
    if n < 0 {
      assert IntText(n) == "-" + NatText(magnitude);
      assert s[0] == '-' && s[1..] == NatText(magnitude) + rest;
    } else {
      assert s[0] == NatText(magnitude)[0];
    }
    assert SkipBlanks(s) == s;
    BlankSkipped(s);
  }

  lemma BlankSkipped(s: string)
    ensures ScanInt(" " + s) == ScanInt(s)
  {
    assert (" " + s)[1..] == s;
    assert SkipBlanks(" " + s) == SkipBlanks(s);
  }

  lemma ScanMorePrinted(v: int, left: string, count: nat, vs: seq<int>)
    requires IsInt(v) && (left == "" || left[0] == ' ') && ScanMore(left, count) == Some(vs)
    ensures ScanMore(" " + (IntText(v) + left), count + 1) == Some([v] + vs)
  {
    ScanPrinted(v, left);
  }

  lemma ScanPrinted4(a: int, b: int, c: int, d: int)
    requires IsInt(a) && IsInt(b) && IsInt(c) && IsInt(d)
    ensures Scan4(IntText(a) + " " + IntText(b) + " " + IntText(c) + " " + IntText(d)) == Some([a, b, c, d])
  {
    hide IntText, Scan4;
    Respace(IntText(a), IntText(b), IntText(c), IntText(d));
    ScanNested(a, b, c, d);
  }

  lemma ScanNested(a: int, b: int, c: int, d: int)
    requires IsInt(a) && IsInt(b) && IsInt(c) && IsInt(d)
    ensures Scan4(IntText(a) + (" " + (IntText(b) + (" " + (IntText(c) + (" " + (IntText(d) + "")))))))
            == Some([a, b, c, d])
  {
    hide IntText, ScanInt;
    var r3 := " " + (IntText(d) + "");
    var r2 := " " + (IntText(c) + r3);
    var r1 := " " + (IntText(b) + r2);
    ScanMorePrinted(d, "", 0, []);
    ScanMorePrinted(c, r3, 1, [d] + []);
    ScanMorePrinted(b, r2, 2, [c] + ([d] + []));
    ScanPrinted(a, r1);
    assert [a] + ([b] + ([c] + ([d] + []))) == [a, b, c, d];
  }

  lemma Respace(a: string, b: string, c: string, d: string)
    ensures a + " " + b + " " + c + " " + d == a + (" " + (b + (" " + (c + (" " + (d + ""))))))
  {
    Regroup(" ", a, b, c, d);
    assert c + " " + d == c + (" " + (d + ""));
    var t := c + " " + d;
    assert b + " " + t == b + (" " + t);
    var u := b + " " + t;
    assert a + " " + u == a + (" " + u);
  }

  /** The codec is lossless on a key exactly when the key's type text has no separator. */
  lemma RoundTrip(k: MediaKey)
    requires Fits(k)
    ensures Decode(Encode(k)) == Some(k) <==> '|' !in k.mediaType
  {
    if '|' !in k.mediaType {
      IntTextShape(k.tmdb); IntTextShape(k.tvdb); IntTextShape(k.season); IntTextShape(k.episode);
      SplitFive(k.mediaType, IntText(k.tmdb), IntText(k.tvdb), IntText(k.season), IntText(k.episode));
      ScanPrinted4(k.tmdb, k.tvdb, k.season, k.episode);
    } else {
      DecodedIsCodable(Encode(k));
    }
  }

  /** Whatever text is read, a decoded key is one that the codec round-trips. */
  lemma DecodedIsCodable(s: string)
    ensures Decode(s).Some? ==> Codable(Decode(s).value)
  {
    hide Scan4, SplitN, IsInt;
    var parts := SplitN(s, 5);
    if |parts| == 5 {
      FirstField(s, 5);
      Scan4Length(parts[1] + " " + parts[2] + " " + parts[3] + " " + parts[4]);
    }
  }

  lemma FirstField(s: string, n: nat)
    requires n >= 1 && |SplitN(s, n)| > 1
    ensures '|' !in SplitN(s, n)[0]
  {
  }


  /** For example: the fields in order, between bars. */
  lemma EncodeText()
    ensures Encode(MediaKey("tv", 1, 20, 3, -4)) == "tv|1|20|3|-4"
  {
    assert NatText(20) == NatText(2) + "0";
  }
}
