// Byte-range headers (RFC 9110 sections 14.2 and 14.4) as the artifact client writes and reads
// them: "bytes=0-N" from an upload session, "bytes first-last/total" both ways.
module Ranges {
  import opened Common
  import opened Text

  const MAX_INT64: int := 0x7fff_ffff_ffff_ffff

  function Wrap64(n: int): int {
    (n + 0x8000_0000_0000_0000) % 0x1_0000_0000_0000_0000 - 0x8000_0000_0000_0000
  }

  // ---------------------------------------------------------------- decimal numbers

  predicate IsDigit(c: char) { '0' <= c <= '9' }

  predicate AllDigits(s: string) { forall i | 0 <= i < |s| :: IsDigit(s[i]) }

  function DigitsValue(s: string): nat
    requires AllDigits(s)
  {
    if s == "" then 0 else DigitsValue(s[..|s|-1]) * 10 + (s[|s|-1] - '0') as nat
  }

  function Decimal(n: nat): string {
    var digit := '0' + (n % 10) as char;
    if n < 10 then [digit] else Decimal(n / 10) + [digit]
  }

  // strconv.ParseInt(s, 10, 64): an optional sign, then digits, within 64 bits.
  function ParseInt(s: string): Option<int> {
    var negative := s != "" && s[0] == '-';
    var digits := if s != "" && (s[0] == '-' || s[0] == '+') then s[1..] else s;
    if digits == "" || !AllDigits(digits) then None
    else
      var magnitude: int := DigitsValue(digits);
      var v := if negative then -magnitude else magnitude;
      if -MAX_INT64 - 1 <= v <= MAX_INT64 then Some(v) else None
  }

  lemma {:induction false} DecimalValue(n: nat)
    ensures Decimal(n) != "" && AllDigits(Decimal(n)) && DigitsValue(Decimal(n)) == n
  {
    if n >= 10 {
      DecimalValue(n / 10);
      assert Decimal(n)[..|Decimal(n)|-1] == Decimal(n / 10);
    } else {
      assert Decimal(n)[..0] == "";
    }
  }

  lemma ParseDecimal(n: nat)
    requires n <= MAX_INT64
    ensures ParseInt(Decimal(n)) == Some(n)
  {
    DecimalValue(n);
    assert IsDigit(Decimal(n)[0]);
  }

  // ---------------------------------------------------------------- the headers

  // What an upload session that has `kept` bytes sends: no header for none.
  function KeptHeader(kept: nat): string {
    if kept == 0 then "" else "bytes=0-" + Decimal(kept - 1)
  }

  // How the client reads it; n + 1 wraps as an int64 does.
  function KeptBytes(header: string): int {
    if !("bytes=0-" <= header) then 0
    else
      var n := ParseInt(header[8..]);
      if n.None? || n.value < 0 then 0 else Wrap64(n.value + 1)
  }

  function RangeHeader(first: nat, last: nat, total: Option<nat>): string {
    "bytes " + Decimal(first) + "-" + Decimal(last) + "/" + if total.Some? then Decimal(total.value) else "*"
  }

  // "bytes first-last/total" as (first, total), total -1 when it is "*".
  function ContentRange(header: string): Option<(int, int)> {
    var halves := Cut(TrimPrefix(header, "bytes "), '/');
    if halves.None? then None
    else
      var span := Cut(halves.value.0, '-');
      if span.None? then None
      else
        var first := ParseInt(span.value.0);
        if first.None? then None
        else if halves.value.1 == "*" then Some((first.value, -1))
        else
          var total := ParseInt(halves.value.1);
          if total.None? then None else Some((first.value, total.value))
  }

  // Storage's report of what it kept reads back exactly.
  lemma KeptRoundTrip(kept: nat)
    requires kept <= MAX_INT64
    ensures KeptBytes(KeptHeader(kept)) == kept
  {
    if kept > 0 {
      hide ParseInt;
      ParseDecimal(kept - 1);
      assert KeptHeader(kept)[8..] == Decimal(kept - 1);
    }
  }

  // So does a Content-Range.
  lemma RangeRoundTrip(first: nat, last: nat, total: Option<nat>)
    requires first <= MAX_INT64 && (total.Some? ==> total.value <= MAX_INT64)
    ensures ContentRange(RangeHeader(first, last, total)) ==
      Some((first as int, if total.Some? then total.value as int else -1))
  {
    var f, l, t := Decimal(first), Decimal(last), if total.Some? then Decimal(total.value) else "*";
    ParseDecimal(first);
    DecimalValue(first);
    DecimalValue(last);
    var span := f + "-" + l;
    assert RangeHeader(first, last, total) == "bytes " + (span + "/" + t);
    assert TrimPrefix("bytes " + (span + "/" + t), "bytes ") == span + "/" + t;
    CutAt(span, '/', t);
    CutAt(f, '-', l);
    if total.Some? {
      ParseDecimal(total.value);
      DecimalValue(total.value);
      assert IsDigit(t[0]);
    }
  }
}
