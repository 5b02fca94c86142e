/** `application/x-www-form-urlencoded` as Python's urllib writes and reads it: UTF-8 with
    replacement, percent-encoding, `urlencode` and `parse_qsl(keep_blank_values=True)`. */
module FormEncoding {
  import opened Text

  type Byte = b: int | 0 <= b < 256

  const REPLACEMENT := '\U{FFFD}'

  // --- UTF-8 ---

  function EncodeChar(c: char): (bs: seq<Byte>)
    ensures 1 <= |bs| <= 4
  {
    var n := c as int;
    if n < 0x80 then [n]
    else if n < 0x800 then [0xC0 + n / 64, 0x80 + n % 64]
    else if n < 0x1_0000 then [0xE0 + n / 4096, 0x80 + n / 64 % 64, 0x80 + n % 64]
    else [0xF0 + n / 262144, 0x80 + n / 4096 % 64, 0x80 + n / 64 % 64, 0x80 + n % 64]
  }

  function Encode(s: string): seq<Byte> {
    if s == [] then [] else EncodeChar(s[0]) + Encode(s[1..])
  }

  function Payload(b: Byte, marker: int): int {
    b - marker
  }

  predicate Continues(bs: seq<Byte>, i: nat) {
    i < |bs| && 0x80 <= bs[i] < 0xC0
  }

  /** The second byte of a longer sequence, which rules out overlong forms and surrogates. */
  predicate SecondFits(bs: seq<Byte>)
    requires bs != []
  {
    && Continues(bs, 1)
    && (bs[0] == 0xE0 ==> bs[1] >= 0xA0)
    && (bs[0] == 0xED ==> bs[1] < 0xA0)
    && (bs[0] == 0xF0 ==> bs[1] >= 0x90)
    && (bs[0] == 0xF4 ==> bs[1] < 0x90)
  }

  /** The first character of `bs` and how many bytes it took; the longest ill-formed
      prefix counts as one replacement character. */
  function DecodeFirst(bs: seq<Byte>): (r: (char, nat))
    requires bs != []
    ensures 1 <= r.1 <= |bs|
  {
    var b := bs[0];
    if b < 0x80 then (b as char, 1)
    else if 0xC2 <= b < 0xE0 && Continues(bs, 1) then ((Payload(b, 0xC0) * 64 + Payload(bs[1], 0x80)) as char, 2)
    else if 0xE0 <= b < 0xF0 && SecondFits(bs) then
      if Continues(bs, 2) then
        ((Payload(b, 0xE0) * 4096 + Payload(bs[1], 0x80) * 64 + Payload(bs[2], 0x80)) as char, 3)
      else (REPLACEMENT, 2)
    else if 0xF0 <= b < 0xF5 && SecondFits(bs) then
      if Continues(bs, 2) then
        if Continues(bs, 3) then
          ((Payload(b, 0xF0) * 262144 + Payload(bs[1], 0x80) * 4096 + Payload(bs[2], 0x80) * 64
             + Payload(bs[3], 0x80)) as char, 4)
        else (REPLACEMENT, 3)
      else (REPLACEMENT, 2)
    else (REPLACEMENT, 1)
  }

  function Decode(bs: seq<Byte>): string {
    if bs == [] then [] else [DecodeFirst(bs).0] + Decode(bs[DecodeFirst(bs).1..])
  }

  lemma {:induction false} Base64Digits(n: nat)
    ensures n == n / 64 * 64 + n % 64
    ensures n / 64 == n / 4096 * 64 + n / 64 % 64
    ensures n / 4096 == n / 262144 * 64 + n / 4096 % 64
  {
  }

  lemma {:induction false} DecodeTwo(c: char, rest: seq<Byte>)
    requires 0x80 <= c as int < 0x800
    ensures DecodeFirst(EncodeChar(c) + rest) == (c, 2)
  {
    Base64Digits(c as int);
    var bs := EncodeChar(c) + rest;
    assert bs[0] == 0xC0 + c as int / 64 && bs[1] == 0x80 + c as int % 64;
  }

  lemma {:induction false} DecodeThree(c: char, rest: seq<Byte>)
    requires 0x800 <= c as int < 0x1_0000
    ensures DecodeFirst(EncodeChar(c) + rest) == (c, 3)
  {
    var n, bs := c as int, EncodeChar(c) + rest;
    Base64Digits(n);
    assert bs[0] == 0xE0 + n / 4096 && bs[1] == 0x80 + n / 64 % 64 && bs[2] == 0x80 + n % 64;
  }

  lemma {:induction false} DecodeFour(c: char, rest: seq<Byte>)
    requires 0x1_0000 <= c as int
    ensures DecodeFirst(EncodeChar(c) + rest) == (c, 4)
  {
    var n, bs := c as int, EncodeChar(c) + rest;
    Base64Digits(n);
    assert bs[0] == 0xF0 + n / 262144 && bs[1] == 0x80 + n / 4096 % 64;
    assert bs[2] == 0x80 + n / 64 % 64 && bs[3] == 0x80 + n % 64;
  }

  lemma {:induction false} DecodeFirstInverts(c: char, rest: seq<Byte>)
    ensures DecodeFirst(EncodeChar(c) + rest) == (c, |EncodeChar(c)|)
  {
    if c as int >= 0x1_0000 {
      DecodeFour(c, rest);
    } else if c as int >= 0x800 {
      DecodeThree(c, rest);
    } else if c as int >= 0x80 {
      DecodeTwo(c, rest);
    }
  }

  lemma {:induction false} DecodeInverts(s: string)
    ensures Decode(Encode(s)) == s
  {
    if s != [] {
      DecodeFirstInverts(s[0], Encode(s[1..]));
      DecodeInverts(s[1..]);
      assert Encode(s)[|EncodeChar(s[0])|..] == Encode(s[1..]);
    }
  }

  // --- Percent-encoding ---

  function HexDigit(n: int): (c: char)
    requires 0 <= n < 16
    ensures '0' <= c <= '9' || 'A' <= c <= 'F'
  {
    if n < 10 then (n + '0' as int) as char else (n - 10 + 'A' as int) as char
  }

  predicate Unreserved(b: Byte) {
    || '0' as int <= b <= '9' as int
    || 'A' as int <= b <= 'Z' as int
    || 'a' as int <= b <= 'z' as int
    || b == '_' as int || b == '.' as int || b == '-' as int || b == '~' as int
  }

  function QuoteByte(b: Byte): string {
    if b == 0x20 then "+"
    else if Unreserved(b) then [b as char]
    else ['%', HexDigit(b / 16), HexDigit(b % 16)]
  }

  function QuoteBytes(bs: seq<Byte>): string {
    if bs == [] then [] else QuoteByte(bs[0]) + QuoteBytes(bs[1..])
  }

  /** `quote_plus`. */
  function QuotePlus(s: string): string {
    QuoteBytes(Encode(s))
  }

  predicate IsAscii(c: char) {
    c as int < 0x80
  }

  function CodeOf(c: char): Byte
    requires IsAscii(c)
  {
    c as int
  }

  function HexValue(c: char): int {
    if '0' <= c <= '9' then c as int - '0' as int
    else if 'A' <= c <= 'F' then c as int - 'A' as int + 10
    else if 'a' <= c <= 'f' then c as int - 'a' as int + 10
    else -1
  }

  predicate IsEscape(s: string) {
    |s| >= 3 && s[0] == '%' && HexValue(s[1]) >= 0 && HexValue(s[2]) >= 0
  }

  /** `unquote_to_bytes` on ASCII text; a stray percent sign stands for itself. */
  function UnquoteBytes(s: string): seq<Byte>
    requires forall i :: 0 <= i < |s| ==> IsAscii(s[i])
  {
    if s == [] then []
    else if IsEscape(s) then [HexValue(s[1]) * 16 + HexValue(s[2])] + UnquoteBytes(s[3..])
    else [CodeOf(s[0])] + UnquoteBytes(s[1..])
  }

  function AsciiRun(s: string): (n: nat)
    ensures n <= |s| && forall i :: 0 <= i < n ==> IsAscii(s[i])
    ensures s != [] && IsAscii(s[0]) ==> n > 0
    ensures n < |s| ==> !IsAscii(s[n])
  {
    if s == [] || !IsAscii(s[0]) then 0 else 1 + AsciiRun(s[1..])
  }

  /** `unquote`: escapes are decoded within runs of ASCII text, other characters pass through. */
  function Unquote(s: string): string
    decreases |s|
  {
    if s == [] then []
    else if IsAscii(s[0]) then Decode(UnquoteBytes(s[..AsciiRun(s)])) + Unquote(s[AsciiRun(s)..])
    else [s[0]] + Unquote(s[1..])
  }

  function PlusToSpace(s: string): (r: string)
    ensures |r| == |s| && forall i :: 0 <= i < |s| ==> r[i] == if s[i] == '+' then ' ' else s[i]
  {
    seq(|s|, i requires 0 <= i < |s| => if s[i] == '+' then ' ' else s[i])
  }

  function DecodeField(s: string): string {
    Unquote(PlusToSpace(s))
  }

  predicate QuotedChar(c: char) {
    IsAscii(c) && (Unreserved(CodeOf(c)) || c == '+' || c == '%')
  }

  /** Quoted text is made of unreserved characters, plus signs and escapes. */
  predicate IsQuoted(s: string) {
    forall i :: 0 <= i < |s| ==> QuotedChar(s[i])
  }

  lemma {:induction false} QuotedIsQuoted(bs: seq<Byte>)
    ensures IsQuoted(QuoteBytes(bs))
  {
    if bs != [] {
      QuotedIsQuoted(bs[1..]);
    }
  }

  lemma {:induction false} UnquoteBytesInverts(bs: seq<Byte>)
    ensures IsQuoted(QuoteBytes(bs)) && UnquoteBytes(PlusToSpace(QuoteBytes(bs))) == bs
  {
    QuotedIsQuoted(bs);
    if bs != [] {
      UnquoteBytesInverts(bs[1..]);
      var rest := PlusToSpace(QuoteBytes(bs[1..]));
      UnquoteFirst(bs[0], rest);
      PlusToSpaceJoins(QuoteByte(bs[0]), QuoteBytes(bs[1..]));
      assert [bs[0]] + bs[1..] == bs;
    }
  }

  lemma {:induction false} PlusToSpaceJoins(s: string, t: string)
    ensures PlusToSpace(s + t) == PlusToSpace(s) + PlusToSpace(t)
  {
  }

  lemma {:induction false} UnquoteFirst(b: Byte, rest: string)
    requires forall i :: 0 <= i < |rest| ==> IsAscii(rest[i])
    ensures var s := PlusToSpace(QuoteByte(b)) + rest;
            && (forall i :: 0 <= i < |s| ==> IsAscii(s[i]))
            && UnquoteBytes(s) == [b] + UnquoteBytes(rest)
  {
    var first := PlusToSpace(QuoteByte(b));
    var s := first + rest;
    assert s[|first|..] == rest;
    if b != 0x20 && !Unreserved(b) {
      assert s[0] == '%' && s[1] == HexDigit(b / 16) && s[2] == HexDigit(b % 16);
    }
  }

  lemma {:induction false} UnquoteAscii(s: string)
    requires forall i :: 0 <= i < |s| ==> IsAscii(s[i])
    ensures Unquote(s) == Decode(UnquoteBytes(s))
  {
    if s != [] {
      assert AsciiRun(s) == |s|;
      assert s[..|s|] == s && s[|s|..] == [];
    }
  }

  /** Every string survives being written as a form field and read back. */
  lemma {:induction false} FieldRoundTrip(s: string)
    ensures DecodeField(QuotePlus(s)) == s
  {
    UnquoteBytesInverts(Encode(s));
    DecodeInverts(s);
    UnquoteAscii(PlusToSpace(QuotePlus(s)));
  }

  // --- Pair lists ---

  type Pair = (string, string)

  function EncodePair(p: Pair): string {
    QuotePlus(p.0) + ['='] + QuotePlus(p.1)
  }

  /** `urlencode`. */
  function UrlEncode(pairs: seq<Pair>): string {
    if pairs == [] then []
    else if |pairs| == 1 then EncodePair(pairs[0])
    else EncodePair(pairs[0]) + ['&'] + UrlEncode(pairs[1..])
  }

  function ParsePair(field: string): Pair {
    var i := IndexOf(field, '=');
    (DecodeField(field[..i]), DecodeField(if i < |field| then field[i + 1..] else []))
  }

  /** `parse_qsl(..., keep_blank_values=True)`: empty fields are skipped, a missing value is blank. */
  function ParseQuery(q: string): seq<Pair>
    decreases |q|
  {
    if q == [] then []
    else
      var i := IndexOf(q, '&');
      (if i == 0 then [] else [ParsePair(q[..i])]) + (if i < |q| then ParseQuery(q[i + 1..]) else [])
  }

  lemma {:induction false} PairRoundTrip(p: Pair)
    ensures ParsePair(EncodePair(p)) == p
    ensures '&' !in EncodePair(p) && EncodePair(p) != []
  {
    QuotedIsQuoted(Encode(p.0));
    QuotedIsQuoted(Encode(p.1));
    FieldRoundTrip(p.0);
    FieldRoundTrip(p.1);
    var field := EncodePair(p);
    IndexOfIs(field, '=', |QuotePlus(p.0)|);
    assert field[..|QuotePlus(p.0)|] == QuotePlus(p.0);
    assert field[|QuotePlus(p.0)| + 1..] == QuotePlus(p.1);
  }

  /** The form-urlencoded round trip: every list of pairs, blanks and duplicates included. */
  lemma {:induction false} QueryRoundTrip(pairs: seq<Pair>)
    ensures ParseQuery(UrlEncode(pairs)) == pairs
  {
    if pairs != [] {
      PairRoundTrip(pairs[0]);
      var q, first := UrlEncode(pairs), EncodePair(pairs[0]);
      IndexOfIs(q, '&', |first|);
      assert q[..|first|] == first;
      if |pairs| > 1 {
        QueryRoundTrip(pairs[1..]);
        assert q[|first| + 1..] == UrlEncode(pairs[1..]);
      }
    }
  }

  lemma {:induction false} EncodedIsPlain(pairs: seq<Pair>)
    ensures forall i :: 0 <= i < |UrlEncode(pairs)| ==>
              QuotedChar(UrlEncode(pairs)[i]) || UrlEncode(pairs)[i] == '=' || UrlEncode(pairs)[i] == '&'
  {
    if pairs != [] {
      QuotedIsQuoted(Encode(pairs[0].0));
      QuotedIsQuoted(Encode(pairs[0].1));
      EncodedIsPlain(pairs[1..]);
    }
  }

  // --- Sorting pairs ---

  /** Python's order on strings: by code point, a prefix first. */
  predicate StringLe(a: string, b: string) {
    a == [] || (b != [] && (a[0] < b[0] || (a[0] == b[0] && StringLe(a[1..], b[1..]))))
  }

  predicate PairLe(p: Pair, q: Pair) {
    if p.0 == q.0 then StringLe(p.1, q.1) else StringLe(p.0, q.0)
  }

  lemma {:induction false} StringLeTotal(a: string, b: string)
    ensures StringLe(a, b) || StringLe(b, a)
    ensures StringLe(a, b) && StringLe(b, a) ==> a == b
  {
    if a != [] && b != [] && a[0] == b[0] {
      StringLeTotal(a[1..], b[1..]);
      assert a == [a[0]] + a[1..] && b == [b[0]] + b[1..];
    }
  }

  lemma {:induction false} StringLeTransitive(a: string, b: string, c: string)
    requires StringLe(a, b) && StringLe(b, c)
    ensures StringLe(a, c)
  {
    if a != [] && a[0] == b[0] && b[0] == c[0] {
      StringLeTransitive(a[1..], b[1..], c[1..]);
    }
  }

  lemma {:induction false} PairLeTotal(p: Pair, q: Pair)
    ensures PairLe(p, q) || PairLe(q, p)
    ensures PairLe(p, q) && PairLe(q, p) ==> p == q
  {
    StringLeTotal(p.0, q.0);
    StringLeTotal(p.1, q.1);
  }

  lemma {:induction false} PairLeTransitive(p: Pair, q: Pair, r: Pair)
    requires PairLe(p, q) && PairLe(q, r)
    ensures PairLe(p, r)
  {
    StringLeTotal(p.0, q.0);
    StringLeTotal(q.0, r.0);
    if p.0 == q.0 && q.0 == r.0 {
      StringLeTransitive(p.1, q.1, r.1);
    } else {
      StringLeTransitive(p.0, q.0, r.0);
    }
  }

  predicate IsSorted(s: seq<Pair>) {
    forall i, j :: 0 <= i < j < |s| ==> PairLe(s[i], s[j])
  }

  function InsertPair(p: Pair, s: seq<Pair>): seq<Pair> {
    if s == [] || PairLe(p, s[0]) then [p] + s else [s[0]] + InsertPair(p, s[1..])
  }

  /** `sorted(pairs)`. */
  function Sort(s: seq<Pair>): seq<Pair> {
    if s == [] then [] else InsertPair(s[0], Sort(s[1..]))
  }

  lemma {:induction false} InsertIsSorted(p: Pair, s: seq<Pair>)
    requires IsSorted(s)
    ensures IsSorted(InsertPair(p, s)) && multiset(InsertPair(p, s)) == multiset(s) + multiset{p}
  {
    if s == [] {
    } else if PairLe(p, s[0]) {
      forall i | 0 <= i < |s| ensures PairLe(p, s[i]) {
        if i > 0 {
          PairLeTransitive(p, s[0], s[i]);
        }
      }
    } else {
      PairLeTotal(p, s[0]);
      InsertIsSorted(p, s[1..]);
      assert s == [s[0]] + s[1..];
      var rest := InsertPair(p, s[1..]);
      forall q | q in rest ensures PairLe(s[0], q) {
        assert q in multiset(rest);
        assert q == p || q in s[1..];
      }
    }
  }

  lemma {:induction false} SortIsSorted(s: seq<Pair>)
    ensures IsSorted(Sort(s)) && multiset(Sort(s)) == multiset(s)
  {
    if s != [] {
      SortIsSorted(s[1..]);
      InsertIsSorted(s[0], Sort(s[1..]));
      assert s == [s[0]] + s[1..];
    }
  }

  lemma {:induction false} SameFirst(s: seq<Pair>, t: seq<Pair>)
    requires IsSorted(s) && IsSorted(t) && multiset(s) == multiset(t) && s != [] && t != []
    ensures s[0] == t[0]
  {
    assert s[0] in multiset(t) && t[0] in multiset(s);
    var i :| 0 <= i < |s| && s[i] == t[0];
    var j :| 0 <= j < |t| && t[j] == s[0];
    PairLeTotal(s[0], t[0]);
  }

  /** A multiset has one sorted listing. */
  lemma {:induction false} SortedUnique(s: seq<Pair>, t: seq<Pair>)
    requires IsSorted(s) && IsSorted(t) && multiset(s) == multiset(t)
    ensures s == t
  {
    assert |s| == |multiset(s)| == |multiset(t)| == |t|;
    if s != [] {
      SameFirst(s, t);
      assert s == [s[0]] + s[1..] && t == [t[0]] + t[1..];
      assert multiset(s[1..]) == multiset(s) - multiset{s[0]};
      assert multiset(t[1..]) == multiset(t) - multiset{t[0]};
      SortedUnique(s[1..], t[1..]);
    }
  }

  lemma {:induction false} SortCanonical(s: seq<Pair>, t: seq<Pair>)
    ensures Sort(s) == Sort(t) <==> multiset(s) == multiset(t)
    ensures Sort(Sort(s)) == Sort(s)
  {
    SortIsSorted(s);
    SortIsSorted(t);
    SortIsSorted(Sort(s));
    SortedUnique(Sort(Sort(s)), Sort(s));
    if multiset(s) == multiset(t) {
      SortedUnique(Sort(s), Sort(t));
    }
  }

  // --- What is written, and in what order ---

  /** A form field keeps letters, digits and four marks, writes a space as a plus sign, and escapes any other ASCII
      character by its code in two upper-case hexadecimal digits. */
  lemma {:induction false} AsciiIsQuoted(c: char)
    requires IsAscii(c)
    ensures QuotePlus([c]) ==
            if 'a' <= c <= 'z' || 'A' <= c <= 'Z' || '0' <= c <= '9' || c == '_' || c == '.' || c == '-' || c == '~' then [c]
            else if c == ' ' then "+"
            else ['%', "0123456789ABCDEF"[c as int / 16], "0123456789ABCDEF"[c as int % 16]]
  {
    var b: Byte := c as int;
    assert [c][1..] == [] && Encode([c]) == [b] + Encode([]) == [b];
    assert [b][1..] == [] && QuoteBytes([b]) == QuoteByte(b) + [] == QuoteByte(b);
    HexDigitIs(c as int / 16);
    HexDigitIs(c as int % 16);
  }

  lemma {:induction false} HexDigitIs(n: int)
    requires 0 <= n < 16
    ensures HexDigit(n) == "0123456789ABCDEF"[n]
  {
  }

  /** Sorted pairs stand in the order of their keys' code points, a shorter key first. */
  lemma {:induction false} KeysAscend(s: seq<Pair>, i: nat, j: nat, k: nat)
    requires i < j < |Sort(s)|
    ensures var a, b := Sort(s)[i].0, Sort(s)[j].0;
            k < |a| && k <= |b| && a[..k] == b[..k] ==> k < |b| && a[k] <= b[k]
  {
    SortIsSorted(s);
    var a, b := Sort(s)[i], Sort(s)[j];
    assert PairLe(a, b);
    StringLeTotal(a.0, b.0);
    if k < |a.0| && k <= |b.0| && a.0[..k] == b.0[..k] {
      FirstDifference(a.0, b.0, k);
    }
  }

  lemma {:induction false} FirstDifference(a: string, b: string, k: nat)
    requires StringLe(a, b) && k < |a| && k <= |b| && a[..k] == b[..k]
    ensures k < |b| && a[k] <= b[k]
  {
    if k > 0 {
      assert a[0] == a[..k][0] && b[0] == b[..k][0];
      assert a[1..][..k - 1] == a[..k][1..] && b[1..][..k - 1] == b[..k][1..];
      FirstDifference(a[1..], b[1..], k - 1);
    }
  }

  /** Pairs with one key stand in the order of their values. */
  lemma {:induction false} ValuesAscend(s: seq<Pair>, i: nat, j: nat, k: nat)
    requires i < j < |Sort(s)| && Sort(s)[i].0 == Sort(s)[j].0
    ensures var a, b := Sort(s)[i].1, Sort(s)[j].1;
            k < |a| && k <= |b| && a[..k] == b[..k] ==> k < |b| && a[k] <= b[k]
  {
    SortIsSorted(s);
    var a, b := Sort(s)[i], Sort(s)[j];
    assert PairLe(a, b);
    if k < |a.1| && k <= |b.1| && a.1[..k] == b.1[..k] {
      FirstDifference(a.1, b.1, k);
    }
  }

  /** Hexadecimal digits are read in either letter case. */
  lemma {:induction false} HexIsRead(n: nat)
    requires n < 16
    ensures HexValue("0123456789ABCDEF"[n]) == n && HexValue("0123456789abcdef"[n]) == n
  {
  }

  /** A field without an equals sign is a name with a blank value, and an empty field is none. */
  lemma {:induction false} BlanksAreKept(name: string, q: string)
    requires name != "" && '=' !in name && '&' !in name
    ensures ParseQuery(name) == [(DecodeField(name), "")]
    ensures ParseQuery("&" + q) == ParseQuery(q)
  {
    IndexOfIs(name, '=', |name|);
    IndexOfIs(name, '&', |name|);
    assert name[..|name|] == name;
    assert ("&" + q)[1..] == q;
    assert DecodeField([]) == [] && [] + ParseQuery(q) == ParseQuery(q);
  }
}
