/** Decimal and hexadecimal fields, and joining fields with a separator. */
module Text {
  import opened Basics

  // ---------- separators

  function Join<T>(parts: seq<seq<T>>, sep: T): seq<T> {
    if parts == [] then [] else if |parts| == 1 then parts[0] else parts[0] + [sep] + Join(parts[1..], sep)
  }

  /** The length of the text before the first separator. */
  function Head<T(==)>(s: seq<T>, sep: T): (n: nat)
    ensures n <= |s| && sep !in s[..n] && (n < |s| ==> s[n] == sep)
  {
    if s == [] || s[0] == sep then 0 else
      var n := 1 + Head(s[1..], sep);
      assert s[..n] == [s[0]] + s[1..][..n - 1];
      n
  }

  function Split<T(==)>(s: seq<T>, sep: T): (parts: seq<seq<T>>)
    ensures parts != []
    decreases |s|
  {
    var n := Head(s, sep);
    if n == |s| then [s] else [s[..n]] + Split(s[n + 1..], sep)
  }

  predicate Lacks<T(==)>(parts: seq<seq<T>>, sep: T) { forall i :: 0 <= i < |parts| ==> sep !in parts[i] }

  lemma HeadOfJoined<T>(a: seq<T>, b: seq<T>, sep: T)
    requires sep !in a
    ensures Head(a + [sep] + b, sep) == |a|
  {
    var s := a + [sep] + b;
    assert s[|a|] == sep && forall i :: 0 <= i < |a| ==> s[i] == a[i];
  }

  /** Splitting undoes joining. */
  lemma {:induction false} SplitJoin<T>(parts: seq<seq<T>>, sep: T)
    requires parts != [] && Lacks(parts, sep)
    ensures Split(Join(parts, sep), sep) == parts
  {
    if |parts| == 1 {
      WholeHead(parts[0], sep);
      assert Join(parts, sep) == parts[0];
      assert parts == [parts[0]];
    } else {
      var rest := Join(parts[1..], sep);
      SplitJoin(parts[1..], sep);
      SplitFirst(parts[0], rest, sep);
      assert parts == [parts[0]] + parts[1..];
    }
  }

  lemma WholeHead<T>(s: seq<T>, sep: T)
    requires sep !in s
    ensures Split(s, sep) == [s]
  {
    assert Head(s, sep) == |s|;
  }

  lemma SplitFirst<T>(a: seq<T>, b: seq<T>, sep: T)
    requires sep !in a
    ensures Split(a + [sep] + b, sep) == [a] + Split(b, sep)
  {
    hide Head;
    HeadOfJoined(a, b, sep);
    var s := a + [sep] + b;
    assert s[..|a|] == a && s[|a| + 1..] == b;
  }

  lemma {:induction false} JoinLacks<T>(parts: seq<seq<T>>, sep: T, c: T)
    requires parts != [] && Lacks(parts, c) && c != sep
    ensures c !in Join(parts, sep)
  {
    if |parts| > 1 { JoinLacks(parts[1..], sep, c); }
  }

  // ---------- decimal numbers

  function DigitOf(d: nat): char
    requires d < 10
  {
    ('0' as int + d) as char
  }

  function DigitValue(c: char): Option<nat> {
    if '0' <= c <= '9' then Some(c as int - '0' as int) else None
  }

  function Decimal(n: nat): (s: string)
    ensures s != "" && forall i :: 0 <= i < |s| ==> '0' <= s[i] <= '9'
  {
    if n < 10 then [DigitOf(n)] else Decimal(n / 10) + [DigitOf(n % 10)]
  }

  function ParseDecimal(s: string): Option<nat> {
    if s == "" then None else
      var d := DigitValue(s[|s| - 1]);
      if d.None? then None
      else if |s| == 1 then d
      else
        var rest := ParseDecimal(s[..|s| - 1]);
        if rest.None? then None else Some(10 * rest.value + d.value)
  }

  lemma {:induction false} DecimalParses(n: nat)
    ensures ParseDecimal(Decimal(n)) == Some(n)
  {
    if n >= 10 {
      DecimalParses(n / 10);
      assert Decimal(n)[..|Decimal(n)| - 1] == Decimal(n / 10);
    }
  }

  /** Its last digit is the number's, the others are those of its tenth, and it does
      not begin with a zero unless it is one. */
  lemma DecimalIsExact(n: nat)
    ensures var s := Decimal(n);
      && s[|s| - 1] as int - 48 == n % 10 && (|s| == 1 <==> n < 10)
      && (n >= 10 ==> s[..|s| - 1] == Decimal(n / 10)) && (n > 0 ==> s[0] != '0')
  {
    if n >= 10 { DecimalIsExact(n / 10); }
  }

  // ---------- hexadecimal bytes

  function HexOf(d: nat): (c: char)
    requires d < 16
    ensures '0' <= c <= '9' || 'a' <= c <= 'f'
  {
    if d < 10 then ('0' as int + d) as char else ('a' as int + d - 10) as char
  }

  function HexValue(c: char): (r: Option<nat>)
    ensures r.Some? ==> r.value < 16
  {
    if '0' <= c <= '9' then Some(c as int - '0' as int)
    else if 'a' <= c <= 'f' then Some(c as int - 'a' as int + 10) else None
  }

  function Hex(b: Bytes): (s: string)
    ensures |s| == 2 * |b| && forall i :: 0 <= i < |s| ==> '0' <= s[i] <= '9' || 'a' <= s[i] <= 'f'
  {
    if b == [] then "" else [HexOf(b[0] / 16), HexOf(b[0] % 16)] + Hex(b[1..])
  }

  function ParseHex(s: string): Option<Bytes> {
    if s == "" then Some([]) else if |s| == 1 then None else
      var high, low, rest := HexValue(s[0]), HexValue(s[1]), ParseHex(s[2..]);
      if high.None? || low.None? || rest.None? then None else Some([16 * high.value + low.value] + rest.value)
  }

  lemma {:induction false} HexParses(b: Bytes)
    ensures ParseHex(Hex(b)) == Some(b)
  {
    if b != [] {
      HexParses(b[1..]);
      assert Hex(b)[2..] == Hex(b[1..]);
      assert b == [b[0]] + b[1..];
      HexDigits(b[0]);
    }
  }

  /** Each byte is two lower-case digits, the high one first. */
  lemma {:induction false} HexIsExact(b: Bytes, i: nat)
    requires i < |b|
    ensures var high, low := Hex(b)[2 * i] as int, Hex(b)[2 * i + 1] as int;
      && (48 <= high <= 57 || 97 <= high <= 102) && (48 <= low <= 57 || 97 <= low <= 102)
      && b[i] as int == 16 * (if high <= 57 then high - 48 else high - 87) + (if low <= 57 then low - 48 else low - 87)
  {
    if i == 0 {
      HexDigits(b[0]);
    } else {
      HexIsExact(b[1..], i - 1);
      assert Hex(b)[2 * i] == Hex(b[1..])[2 * i - 2] && Hex(b)[2 * i + 1] == Hex(b[1..])[2 * i - 1];
    }
  }

  lemma HexDigits(x: Byte)
    ensures HexValue(HexOf(x / 16)) == Some(x / 16) && HexValue(HexOf(x % 16)) == Some(x % 16)
    ensures 16 * (x / 16) + x % 16 == x
  {
  }

  /** Payload fields: a dash stands for no bytes. */
  function Data(b: Bytes): string { if b == [] then "-" else Hex(b) }

  function ParseData(s: string): Option<Bytes> { if s == "-" then Some([]) else ParseHex(s) }

  lemma DataParses(b: Bytes)
    ensures ParseData(Data(b)) == Some(b)
  {
    HexParses(b);
  }
}
