// Cutting, splitting and joining strings, as the Go strings package does.
module Text {
  import opened Common

  // strings.Cut at a one-character separator.
  function Cut(s: string, sep: char): Option<(string, string)> {
    if s == "" then None
    else if s[0] == sep then Some(("", s[1..]))
    else
      var rest := Cut(s[1..], sep);
      if rest.None? then None else Some(([s[0]] + rest.value.0, rest.value.1))
  }

  lemma {:induction false} CutAt(a: string, sep: char, b: string)
    requires sep !in a
    ensures Cut(a + [sep] + b, sep) == Some((a, b))
  {
    var s := a + [sep] + b;
    if a == "" {
      assert s[1..] == b;
    } else {
      assert s[1..] == a[1..] + [sep] + b;
      CutAt(a[1..], sep, b);
      assert [a[0]] + a[1..] == a;
    }
  }

  function TrimPrefix(s: string, prefix: string): string {
    if prefix <= s then s[|prefix|..] else s
  }

  // strings.TrimSuffix of one character.
  function TrimLast(s: string, c: char): string {
    if s != "" && s[|s|-1] == c then s[..|s|-1] else s
  }

  function Join(parts: seq<string>, sep: char): string {
    if |parts| == 0 then ""
    else if |parts| == 1 then parts[0]
    else parts[0] + [sep] + Join(parts[1..], sep)
  }

  function Split(s: string, sep: char): (parts: seq<string>)
    ensures |parts| > 0
  {
    if s == "" then [""]
    else if s[0] == sep then [""] + Split(s[1..], sep)
    else
      var rest := Split(s[1..], sep);
      [[s[0]] + rest[0]] + rest[1..]
  }

  lemma {:induction false} JoinSplit(s: string, sep: char)
    ensures Join(Split(s, sep), sep) == s
    ensures forall i | 0 <= i < |Split(s, sep)| :: sep !in Split(s, sep)[i]
  {
    if s != "" {
      var rest := Split(s[1..], sep);
      JoinSplit(s[1..], sep);
      assert [s[0]] + s[1..] == s;
      if s[0] == sep {
        assert Split(s, sep)[1..] == rest;
      } else {
        assert Split(s, sep)[1..] == rest[1..];
      }
    }
  }
}
