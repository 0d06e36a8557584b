/** AidBuffer: a string of hexadecimal numbers separated by colons, parsed into an array of bytes with room for as
    many bytes as the string has characters. */
module AidBuffers {
  import opened Bytes

  predicate IsHex(c: char) { '0' <= c <= '9' || 'a' <= c <= 'f' || 'A' <= c <= 'F' }

  function Digit(c: char): (d: int)
    requires IsHex(c)
    ensures 0 <= d < 16
  {
    if '0' <= c <= '9' then c as int - '0' as int
    else if 'a' <= c <= 'f' then c as int - 'a' as int + 10
    else c as int - 'A' as int + 10
  }

  /** Hexadecimal digits from the front of a string, as far as they go */
  function Scan(s: string, value: nat): nat {
    if s == [] || !IsHex(s[0]) then value else Scan(s[1..], 16 * value + Digit(s[0]))
  }

  predicate IsBlank(c: char) { c == ' ' || '\t' <= c <= '\r' }

  function SkipBlanks(s: string): (t: string)
    ensures t == [] || !IsBlank(t[0])
  {
    if s != [] && IsBlank(s[0]) then SkipBlanks(s[1..]) else s
  }

  /** ... with or without 0x before them */
  function Number(s: string): nat {
    if |s| >= 2 && s[0] == '0' && (s[1] == 'x' || s[1] == 'X') then Scan(s[2..], 0) else Scan(s, 0)
  }

  /** sscanf's %x: blanks, a sign, a prefix, digits; zero, which is there before, when it finds no number. */
  function ScanInt(s: string): int {
    var t := SkipBlanks(s);
    if t != [] && t[0] == '-' then 0 - Number(t[1..])
    else if t != [] && t[0] == '+' then Number(t[1..])
    else Number(t)
  }

  /** The number read from a field, as an unsigned int, and cut to a byte; with the sign taken modulo 2^32 first,
      of which 256 is a divisor */
  function ScanByte(s: string): Byte { (ScanInt(s) % 256) as Byte }

  /** find_first_of: the first colon from index i on, or the length */
  function Colon(s: string, i: nat): (p: nat)
    requires i <= |s|
    ensures i <= p <= |s|
    ensures p < |s| ==> s[p] == ':'
    ensures forall j :: i <= j < p ==> s[j] != ':'
    decreases |s| - i
  {
    if i == |s| || s[i] == ':' then i else Colon(s, i + 1)
  }

  /** The string split at its colons; one more field than colons */
  function Fields(s: string): (fields: seq<string>)
    ensures |fields| >= 1
    decreases |s|
  {
    var p := Colon(s, 0);
    if p == |s| then [s] else [s[..p]] + Fields(s[p + 1..])
  }

  function Parsed(fields: seq<string>): (bytes: seq<Byte>)
    ensures |bytes| == |fields|
  {
    if fields == [] then [] else [ScanByte(fields[0])] + Parsed(fields[1..])
  }

  function Colons(s: string): nat {
    if s == [] then 0 else (if s[0] == ':' then 1 else 0) + Colons(s[1..])
  }

  const UINT_LIMIT := 0x1_0000_0000

  predicate Representable(field: string) { -UINT_LIMIT < ScanInt(field) < UINT_LIMIT }

  /** Every number is one that an unsigned int can hold; what %x makes of others is not defined. */
  predicate Readable(s: string) {
    forall i :: 0 <= i < |Fields(s)| ==> Representable(Fields(s)[i])
  }

  lemma {:induction false} FieldsCountColons(s: string)
    ensures |Fields(s)| == Colons(s) + 1
    decreases |s|
  {
    var p := Colon(s, 0);
    NoColonsBefore(s, p);
    if p < |s| {
      FieldsCountColons(s[p + 1..]);
    }
  }

  lemma {:induction false} NoColonsBefore(s: string, p: nat)
    requires p <= |s| && forall j :: 0 <= j < p ==> s[j] != ':'
    ensures Colons(s) == if p == |s| then 0 else (if s[p] == ':' then 1 else 0) + Colons(s[p + 1..])
    decreases p
  {
    if p == 0 {
    } else {
      NoColonsBefore(s[1..], p - 1);
      if p < |s| { assert s[1..][p..] == s[p + 1..]; }
    }
  }

  /** Is there more to the string than colons? */
  predicate HasText(s: string) { exists i :: 0 <= i < |s| && s[i] != ':' }

  lemma {:induction false} ColonsAreCharacters(s: string)
    ensures Colons(s) <= |s|
    ensures Colons(s) < |s| <==> HasText(s)
    decreases |s|
  {
    if s == [] {
    } else {
      var t := s[1..];
      ColonsAreCharacters(t);
      if HasText(t) {
        var i :| 0 <= i < |t| && t[i] != ':';
        assert s[i + 1] != ':';
      }
      if HasText(s) && s[0] == ':' {
        var i :| 0 <= i < |s| && s[i] != ':';
        assert t[i - 1] != ':';
      }
    }
  }

  /** The fields fit the buffer exactly when the string has a character that is not a colon. */
  lemma {:induction false} FieldsFit(s: string)
    ensures |Fields(s)| <= |s| <==> HasText(s)
  {
    FieldsCountColons(s);
    ColonsAreCharacters(s);
  }

  // ---- the constructor's loop ----

  /** A field read with the colon after it is read the same. */
  lemma {:induction false} ColonEndsTheNumber(s: string, value: nat)
    ensures Scan(s + ":", value) == Scan(s, value)
    decreases |s|
  {
    if s != [] && IsHex(s[0]) {
      assert (s + ":")[1..] == s[1..] + ":";
      ColonEndsTheNumber(s[1..], 16 * value + Digit(s[0]));
    }
  }

  lemma {:induction false} ColonEndsTheBlanks(s: string)
    ensures SkipBlanks(s + ":") == SkipBlanks(s) + ":"
    decreases |s|
  {
    if s == [] {
    } else {
      assert (s + ":")[1..] == s[1..] + ":";
      ColonEndsTheBlanks(s[1..]);
    }
  }

  lemma {:induction false} ColonEndsThePrefixed(s: string)
    ensures Number(s + ":") == Number(s)
  {
    if |s| >= 2 {
      assert (s + ":")[2..] == s[2..] + ":";
      ColonEndsTheNumber(s[2..], 0);
    }
    ColonEndsTheNumber(s, 0);
  }

  lemma {:induction false} ColonEndsTheField(s: string)
    ensures ScanInt(s + ":") == ScanInt(s)
  {
    var t := SkipBlanks(s);
    ColonEndsTheBlanks(s);
    ColonEndsThePrefixed(t);
    if t != [] {
      assert (t + ":")[1..] == t[1..] + ":";
      ColonEndsThePrefixed(t[1..]);
    }
  }

  lemma {:induction false} FieldsFrom(s: string, i: nat)
    requires i <= |s|
    ensures Fields(s[i..]) == if Colon(s, i) == |s| then [s[i..]]
            else [s[i..Colon(s, i)]] + Fields(s[Colon(s, i) + 1..])
  {
    ColonFrom(s, i, 0);
    var p := Colon(s, i);
    assert s[i..][..p - i] == s[i..p];
    if p < |s| { assert s[i..][p - i + 1..] == s[p + 1..]; }
  }

  lemma {:induction false} ColonFrom(s: string, i: nat, j: nat)
    requires i + j <= |s|
    ensures Colon(s[i..], j) == Colon(s, i + j) - i
    decreases |s| - i - j
  {
    if i + j < |s| && s[i + j] != ':' { ColonFrom(s, i, j + 1); }
  }

  lemma {:induction false} FieldWithItsColon(s: string, i: nat, p: nat)
    requires i <= p < |s| && s[p] == ':'
    ensures ScanByte(s[i..p + 1]) == ScanByte(s[i..p])
  {
    var field := s[i..p];
    assert s[i..p + 1] == field + ":";
    ColonEndsTheField(field);
  }

  lemma {:induction false} NextField(s: string, i: nat)
    requires i <= |s| && Colon(s, i) < |s|
    ensures var p := Colon(s, i);
            && Fields(s[i..])[1..] == Fields(s[p + 1..])
            && ScanByte(Fields(s[i..])[0]) == ScanByte(s[i..p + 1])
  {
    FieldsFrom(s, i);
    FieldWithItsColon(s, i, Colon(s, i));
  }

  lemma {:induction false} ParsedAt(fields: seq<string>, j: nat)
    requires j < |fields|
    ensures Parsed(fields)[j] == ScanByte(fields[j])
    decreases j
  {
    if j == 0 {
    } else {
      ParsedAt(fields[1..], j - 1);
    }
  }

  /** The string from index i on holds the fields from the n-th on. */
  ghost predicate Rest(fields: seq<string>, n: nat, s: string, i: nat) {
    n < |fields| && i <= |s| && fields[n..] == Fields(s[i..])
  }

  /** Then the text up to the next colon is read as the n-th byte, and what follows holds the fields after it. */
  lemma {:induction false} Advance(fields: seq<string>, n: nat, s: string, i: nat)
    requires Rest(fields, n, s, i)
    ensures var p := Colon(s, i);
            if p < |s|
            then Rest(fields, n + 1, s, p + 1)
                 && Parsed(fields)[..n + 1] == Parsed(fields)[..n] + [ScanByte(s[i..p + 1])]
            else n + 1 == |fields| && Parsed(fields) == Parsed(fields)[..n] + [ScanByte(s[i..])]
  {
    ParsedAt(fields, n);
    assert fields[n] == fields[n..][0] && fields[n..][1..] == fields[n + 1..];
    if Colon(s, i) < |s| {
      NextField(s, i);
      OneMore(Parsed(fields), n, ScanByte(s[i..Colon(s, i) + 1]));
    } else {
      FieldsFrom(s, i);
      OneMore(Parsed(fields), n, ScanByte(s[i..]));
      assert Parsed(fields)[..n + 1] == Parsed(fields);
    }
  }

  lemma {:induction false} OneMore(bytes: seq<Byte>, n: nat, b: Byte)
    requires n < |bytes| && bytes[n] == b
    ensures bytes[..n + 1] == bytes[..n] + [b]
  {
  }

  /** The constructor: every write is inside the array, and the bytes are those of the fields. */
  method Parse(aid: string) returns (buffer: array<Byte>, len: nat)
    requires Readable(aid) && HasText(aid)
    ensures buffer.Length == |aid| && len <= buffer.Length
    ensures buffer[..len] == Parsed(Fields(aid))
  {
    FieldsFit(aid);
    buffer := new Byte[|aid|];
    len := ParseInto(aid, buffer);
  }

  /** The first n fields are in the array. */
  ghost predicate Filled(fields: seq<string>, n: nat, bytes: seq<Byte>) {
    n <= |fields| && bytes == Parsed(fields)[..n]
  }

  method ParseInto(aid: string, buffer: array<Byte>) returns (len: nat)
    requires |Fields(aid)| <= buffer.Length
    modifies buffer
    ensures len <= buffer.Length && buffer[..len] == Parsed(Fields(aid))
  {
    ghost var fields := Fields(aid);
    len := 0;
    var pos1: nat := 0;
    var pos2: nat := Colon(aid, 0);
    assert aid[0..] == aid;
    while pos2 < |aid|
      invariant pos1 <= pos2 <= |aid| && pos2 == Colon(aid, pos1)
      invariant Rest(fields, len, aid, pos1) && Filled(fields, len, buffer[..len])
      decreases |aid| - pos2
    {
      len := StoreField(fields, aid, pos1, pos2, buffer, len);
      pos1 := pos2 + 1;
      pos2 := Colon(aid, pos1);
    }
    len := StoreField(fields, aid, pos1, pos2, buffer, len);
    assert Parsed(fields)[..|fields|] == Parsed(fields);
  }

  /** The field that starts at pos1 and ends at the colon at pos2, or with the string */
  method StoreField(ghost fields: seq<string>, aid: string, pos1: nat, pos2: nat, buffer: array<Byte>, len: nat)
    returns (more: nat)
    requires Rest(fields, len, aid, pos1) && pos2 == Colon(aid, pos1)
    requires |fields| <= buffer.Length && Filled(fields, len, buffer[..len])
    modifies buffer
    ensures more == len + 1 <= |fields| && Filled(fields, more, buffer[..more])
    ensures if pos2 < |aid| then Rest(fields, more, aid, pos2 + 1) else more == |fields|
  {
    Advance(fields, len, aid, pos1);
    var b := ScanByte(if pos2 < |aid| then aid[pos1..pos2 + 1] else aid[pos1..]);
    more := Store(buffer, len, b);
    assert pos2 == |aid| ==> Parsed(fields)[..more] == Parsed(fields);
  }

  method Store(buffer: array<Byte>, len: nat, b: Byte) returns (more: nat)
    requires len < buffer.Length
    modifies buffer
    ensures more == len + 1 && buffer[..more] == old(buffer[..len]) + [b]
  {
    buffer[len] := b;
    return len + 1;
  }

  // ---- the inverse ----

  /** Small letters or capitals, for each of the two digits of a byte */
  datatype Style = Style(high: bool, low: bool)

  function HexChar(d: int, small: bool): (c: char)
    requires 0 <= d < 16
    ensures IsHex(c) && Digit(c) == d && c != ':'
  {
    if d < 10 then ('0' as int + d) as char
    else if small then ('a' as int + d - 10) as char
    else ('A' as int + d - 10) as char
  }

  function PrintByte(b: Byte, style: Style): string {
    [HexChar(b as int / 16, style.high), HexChar(b as int % 16, style.low)]
  }

  /** The bytes in two digits each, colons between */
  function Printed(bytes: seq<Byte>, styles: seq<Style>): string
    requires bytes != [] && |styles| == |bytes|
  {
    var first := PrintByte(bytes[0], styles[0]);
    if |bytes| == 1 then first else first + ":" + Printed(bytes[1..], styles[1..])
  }

  lemma {:induction false} ScanReadsPrinted(b: Byte, style: Style)
    ensures ScanInt(PrintByte(b, style)) == b as int
  {
    var s := PrintByte(b, style);
    var d := Digit(s[0]);
    assert !IsBlank(s[0]) && s[0] != '-' && s[0] != '+' && s[1] != 'x' && s[1] != 'X';
    assert s[1..] == [s[1]] && s[1..][1..] == [];
    assert Scan([], 16 * d + Digit(s[1])) == 16 * d + Digit(s[1]);
    assert Scan(s[1..], d) == 16 * d + Digit(s[1]);
    assert Scan(s, 0) == Scan(s[1..], d);
  }

  lemma {:induction false} BlanksAreSkipped(blanks: string, rest: string)
    requires (forall c <- blanks :: IsBlank(c)) && (rest == [] || !IsBlank(rest[0]))
    ensures SkipBlanks(blanks + rest) == rest
    decreases |blanks|
  {
    if blanks == [] {
      assert blanks + rest == rest;
    } else {
      assert (blanks + rest)[1..] == blanks[1..] + rest;
      BlanksAreSkipped(blanks[1..], rest);
    }
  }

  lemma {:induction false} NumberReadsPrinted(b: Byte, style: Style)
    ensures Number(PrintByte(b, style)) == b as int
    ensures Number("0x" + PrintByte(b, style)) == b as int && Number("0X" + PrintByte(b, style)) == b as int
  {
    var s := PrintByte(b, style);
    ScanReadsPrinted(b, style);
    assert !IsBlank(s[0]) && SkipBlanks(s) == s && s[0] != '-' && s[0] != '+';
    assert s[1] != 'x' && s[1] != 'X' && Scan(s, 0) == b as int;
    assert ("0x" + s)[2..] == s && ("0X" + s)[2..] == s;
  }

  lemma {:induction false} PrefixedReadsPrinted(b: Byte, style: Style, prefix: string)
    requires prefix in {"", "0x", "0X"}
    ensures var s := prefix + PrintByte(b, style);
            Number(s) == b as int && !IsBlank(s[0]) && s[0] != '-' && s[0] != '+'
  {
    NumberReadsPrinted(b, style);
    assert prefix == "" ==> prefix + PrintByte(b, style) == PrintByte(b, style);
  }

  lemma {:induction false} SignedIsScanned(sign: string, s: string)
    requires sign in {"", "+", "-"} && s != [] && !IsBlank(s[0]) && s[0] != '-' && s[0] != '+'
    ensures sign + s != [] && !IsBlank((sign + s)[0])
    ensures ScanInt(sign + s) == if sign == "-" then 0 - Number(s) else Number(s)
  {
    assert SkipBlanks(sign + s) == sign + s;
    assert sign == "" ==> sign + s == s;
    assert sign != "" ==> (sign + s)[1..] == s;
  }

  /** Blanks before a number (spaces, and the characters from tab to carriage return), a sign and a prefix are read as
      %x reads them. */
  lemma {:induction false} ScanReadsDecorated(b: Byte, style: Style, blanks: string, sign: string, prefix: string)
    requires forall c <- blanks :: c as int == 32 || 9 <= c as int <= 13
    requires sign in {"", "+", "-"} && prefix in {"", "0x", "0X"}
    ensures ScanInt(blanks + (sign + (prefix + PrintByte(b, style)))) == if sign == "-" then -(b as int) else b as int
  {
    var s := prefix + PrintByte(b, style);
    PrefixedReadsPrinted(b, style, prefix);
    SignedIsScanned(sign, s);
    BlanksAreSkipped(blanks, sign + s);
    BlanksAreSkipped("", sign + s);
  }

  lemma {:induction false} PrintedSplits(bytes: seq<Byte>, styles: seq<Style>)
    requires |bytes| > 1 && |styles| == |bytes|
    ensures Fields(Printed(bytes, styles))
            == [PrintByte(bytes[0], styles[0])] + Fields(Printed(bytes[1..], styles[1..]))
  {
    var s := Printed(bytes, styles);
    assert s == PrintByte(bytes[0], styles[0]) + ":" + Printed(bytes[1..], styles[1..]);
    assert s[0] != ':' && s[1] != ':' && s[2] == ':';
    assert Colon(s, 2) == 2 && Colon(s, 1) == 2 && Colon(s, 0) == 2;
    assert s[..2] == PrintByte(bytes[0], styles[0]) && s[3..] == Printed(bytes[1..], styles[1..]);
  }

  lemma {:induction false} PrintedByteIsOneField(b: Byte, style: Style)
    ensures Fields(PrintByte(b, style)) == [PrintByte(b, style)] && Parsed([PrintByte(b, style)]) == [b]
  {
    var s := PrintByte(b, style);
    assert s[0] != ':' && s[1] != ':';
    assert Colon(s, 2) == 2 && Colon(s, 1) == 2 && Colon(s, 0) == 2;
    ScanReadsPrinted(b, style);
    assert [s][1..] == [];
  }

  lemma {:induction false} PrintedIsReadable(bytes: seq<Byte>, styles: seq<Style>)
    requires bytes != [] && |styles| == |bytes|
    ensures forall i :: 0 <= i < |Fields(Printed(bytes, styles))| ==> Representable(Fields(Printed(bytes, styles))[i])
    ensures Printed(bytes, styles)[0] != ':'
    decreases |bytes|
  {
    ScanReadsPrinted(bytes[0], styles[0]);
    assert Representable(PrintByte(bytes[0], styles[0]));
    if |bytes| == 1 {
      PrintedByteIsOneField(bytes[0], styles[0]);
    } else {
      PrintedIsReadable(bytes[1..], styles[1..]);
      PrintedSplits(bytes, styles);
    }
  }

  lemma {:induction false} ParsedFirst(field: string, rest: seq<string>)
    ensures Parsed([field] + rest) == [ScanByte(field)] + Parsed(rest)
  {
    assert ([field] + rest)[1..] == rest;
  }

  lemma {:induction false} PrintedFieldsAreParsed(bytes: seq<Byte>, styles: seq<Style>)
    requires bytes != [] && |styles| == |bytes|
    ensures Parsed(Fields(Printed(bytes, styles))) == bytes
    decreases |bytes|
  {
    if |bytes| == 1 {
      PrintedByteIsOneField(bytes[0], styles[0]);
    } else {
      PrintedFieldsAreParsed(bytes[1..], styles[1..]);
      PrintedSplits(bytes, styles);
      ParsedFirst(PrintByte(bytes[0], styles[0]), Fields(Printed(bytes[1..], styles[1..])));
      ScanReadsPrinted(bytes[0], styles[0]);
    }
  }

  /** Parsing inverts printing, for every sequence of bytes but the empty one, in small letters or capitals. */
  lemma {:induction false} ParseInvertsPrint(bytes: seq<Byte>, styles: seq<Style>)
    requires bytes != [] && |styles| == |bytes|
    ensures Readable(Printed(bytes, styles)) && HasText(Printed(bytes, styles))
    ensures Parsed(Fields(Printed(bytes, styles))) == bytes
  {
    PrintedIsReadable(bytes, styles);
    PrintedFieldsAreParsed(bytes, styles);
  }
}
