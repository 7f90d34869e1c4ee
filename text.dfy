/** The string operations the rules use: ASCII lower-casing, substring
    search, `String.prototype.split` on one character, and a leftmost-match
    scanner for the two marker patterns
    `/Leistungsdatum:\s*([0-9.]+)/` and `/Currency:\s*([A-Z]{3})/`. */
module Text {
  import opened Wrappers

  function LowerChar(c: char): char {
    if 'A' <= c <= 'Z' then (c as int + 32) as char else c
  }

  /** `toLowerCase`, restricted to ASCII letters. */
  function ToLower(s: string): (r: string)
    ensures |r| == |s|
    ensures forall i :: 0 <= i < |s| ==> r[i] == LowerChar(s[i])
  {
    if s == [] then [] else [LowerChar(s[0])] + ToLower(s[1..])
  }

  predicate OccursAt(s: string, sub: string, i: nat) {
    i + |sub| <= |s| && s[i..i + |sub|] == sub
  }

  /** Substring containment. */
  predicate Contains(s: string, sub: string) {
    exists i: nat | i <= |s| :: OccursAt(s, sub, i)
  }

  /** The characters of the regular-expression class `\s`. */
  predicate IsSpace(c: char) {
    c == ' ' || c == '\t' || c == '\n' || c == '\r' || c == '\U{000B}' || c == '\U{000C}'
    || c == '\U{00A0}' || c == '\U{1680}' || ('\U{2000}' <= c <= '\U{200A}')
    || c == '\U{2028}' || c == '\U{2029}' || c == '\U{202F}' || c == '\U{205F}'
    || c == '\U{3000}' || c == '\U{FEFF}'
  }

  predicate IsDateChar(c: char) { ('0' <= c <= '9') || c == '.' }

  predicate IsUpper(c: char) { 'A' <= c <= 'Z' }

  /** The end of the longest run of `\s` characters starting at `j`. */
  function SkipSpaces(s: string, j: nat): (k: nat)
    requires j <= |s|
    ensures j <= k <= |s|
    ensures forall t :: j <= t < k ==> IsSpace(s[t])
    ensures k < |s| ==> !IsSpace(s[k])
    decreases |s| - j
  {
    if j < |s| && IsSpace(s[j]) then SkipSpaces(s, j + 1) else j
  }

  /** The end of the longest run of `[0-9.]` characters starting at `j`. */
  function DateRunEnd(s: string, j: nat): (k: nat)
    requires j <= |s|
    ensures j <= k <= |s|
    ensures forall t :: j <= t < k ==> IsDateChar(s[t])
    ensures k < |s| ==> !IsDateChar(s[k])
    decreases |s| - j
  {
    if j < |s| && IsDateChar(s[j]) then DateRunEnd(s, j + 1) else j
  }

  /** The capture group of the two patterns. */
  datatype Capture =
    | DateDigits     // `([0-9.]+)`, greedy
    | CurrencyCode   // `([A-Z]{3})`

  function CaptureAt(s: string, j: nat, cap: Capture): (r: Option<string>)
    requires j <= |s|
    ensures r.Some? && cap == DateDigits ==> |r.value| > 0 && forall t :: 0 <= t < |r.value| ==> IsDateChar(r.value[t])
    ensures r.Some? && cap == CurrencyCode ==> |r.value| == 3 && forall t :: 0 <= t < 3 ==> IsUpper(r.value[t])
  {
    match cap
    case DateDigits =>
      var k := DateRunEnd(s, j);
      if k > j then Some(s[j..k]) else None
    case CurrencyCode =>
      if j + 3 <= |s| && IsUpper(s[j]) && IsUpper(s[j + 1]) && IsUpper(s[j + 2]) then Some(s[j..j + 3]) else None
  }

  /** The pattern `marker\s*(cap)` tried at position `p`: the marker text, then the
      longest run of spaces, then the capture.  Backing off fewer spaces never
      helps, because neither capture class contains a space. */
  function MatchAt(s: string, marker: string, cap: Capture, p: nat): Option<string> {
    if OccursAt(s, marker, p) then CaptureAt(s, SkipSpaces(s, p + |marker|), cap) else None
  }

  /** `s.match(pattern)[1]`: the capture of the leftmost position at or after
      `from` where the pattern matches. */
  function FirstMatch(s: string, marker: string, cap: Capture, from: nat): (r: Option<string>)
    ensures r.Some? ==> exists p :: from <= p <= |s| && MatchAt(s, marker, cap, p) == r
                                  && forall q :: from <= q < p ==> MatchAt(s, marker, cap, q).None?
    ensures r.None? ==> forall p :: from <= p ==> MatchAt(s, marker, cap, p).None?
    decreases |s| - from
  {
    if from > |s| then
      None
    else if MatchAt(s, marker, cap, from).Some? then
      MatchAt(s, marker, cap, from)
    else
      FirstMatch(s, marker, cap, from + 1)
  }

  /** `s.split(sep)`: `n` separators give `n + 1` parts. */
  function Split(s: string, sep: char): (parts: seq<string>)
    ensures |parts| >= 1
    ensures forall i :: 0 <= i < |parts| ==> sep !in parts[i]
    decreases |s|
  {
    if s == [] then [[]]
    else
      var rest := Split(s[1..], sep);
      if s[0] == sep then [[]] + rest
      else [[s[0]] + rest[0]] + rest[1..]
  }

  /** `parts.join(sep)`, the inverse of `Split`. */
  function Join(parts: seq<string>, sep: char): string
    requires |parts| >= 1
  {
    if |parts| == 1 then parts[0] else parts[0] + [sep] + Join(parts[1..], sep)
  }

  /** Splitting text free of the separator gives the text itself. */
  lemma {:induction false} SplitNoSep(s: string, sep: char)
    requires sep !in s
    ensures Split(s, sep) == [s]
  {
    if s != [] {
      SplitNoSep(s[1..], sep);
      assert [s[0]] + s[1..] == s;
    }
  }

  /** Splitting `p + sep + t`, where `p` is free of `sep`, peels off `p`. */
  lemma {:induction false} SplitCons(p: string, t: string, sep: char)
    requires sep !in p
    ensures Split(p + [sep] + t, sep) == [p] + Split(t, sep)
  {
    if p == [] {
      assert p + [sep] + t == [sep] + t;
      assert ([sep] + t)[1..] == t;
    } else {
      var s := p + [sep] + t;
      assert s[0] == p[0] && s[1..] == p[1..] + [sep] + t;
      SplitCons(p[1..], t, sep);
      assert [p[0]] + p[1..] == p;
    }
  }

  /** Round trip: joining the parts of a split restores the text. */
  lemma {:induction false} JoinSplit(s: string, sep: char)
    ensures Join(Split(s, sep), sep) == s
    decreases |s|
  {
    if s != [] {
      JoinSplit(s[1..], sep);
      var rest := Split(s[1..], sep);
      if s[0] == sep {
        assert Split(s, sep)[1..] == rest;
        assert s == [sep] + s[1..];
      } else {
        var parts := Split(s, sep);
        if |rest| == 1 {
          assert s == [s[0]] + rest[0];
        } else {
          assert parts[1..] == rest[1..];
          assert s[1..] == rest[0] + [sep] + Join(rest[1..], sep);
          assert s == ([s[0]] + rest[0]) + [sep] + Join(rest[1..], sep);
        }
      }
    }
  }

  /** Round trip: splitting a join of separator-free parts restores the parts. */
  lemma {:induction false} SplitJoin(parts: seq<string>, sep: char)
    requires |parts| >= 1
    requires forall i :: 0 <= i < |parts| ==> sep !in parts[i]
    ensures Split(Join(parts, sep), sep) == parts
  {
    if |parts| == 1 {
      SplitNoSep(parts[0], sep);
    } else {
      SplitJoin(parts[1..], sep);
      SplitCons(parts[0], Join(parts[1..], sep), sep);
      assert [parts[0]] + parts[1..] == parts;
    }
  }
}
