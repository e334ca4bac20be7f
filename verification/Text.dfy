/** The `str` and `char` operations of the Rust standard library that the server relies on. */
module Text {
  import opened Wrappers

  // The characters with the Unicode property White_Space.
  predicate IsWhitespace(c: char) {
    || '\U{0009}' <= c <= '\U{000D}'
    || c == ' ' || c == '\U{0085}' || c == '\U{00A0}' || c == '\U{1680}'
    || '\U{2000}' <= c <= '\U{200A}'
    || c == '\U{2028}' || c == '\U{2029}' || c == '\U{202F}' || c == '\U{205F}' || c == '\U{3000}'
  }

  // The characters of general category Cc.
  predicate IsControl(c: char) {
    c <= '\U{001F}' || '\U{007F}' <= c <= '\U{009F}'
  }

  predicate IsDigit(c: char) {
    '0' <= c <= '9'
  }

  predicate IsLower(c: char) {
    'a' <= c <= 'z'
  }

  predicate IsUpper(c: char) {
    'A' <= c <= 'Z'
  }

  predicate IsAlphanumeric(c: char) {
    IsDigit(c) || IsLower(c) || IsUpper(c)
  }

  predicate IsHexDigit(c: char) {
    IsDigit(c) || 'a' <= c <= 'f' || 'A' <= c <= 'F'
  }

  predicate StartsWith(s: string, prefix: string) {
    prefix <= s
  }

  predicate Contains(s: string, part: string) {
    part <= s || (s != "" && Contains(s[1..], part))
  }

  function TrimStart(s: string): string {
    if s != "" && IsWhitespace(s[0]) then TrimStart(s[1..]) else s
  }

  function TrimEnd(s: string): string {
    if s != "" && IsWhitespace(s[|s| - 1]) then TrimEnd(s[..|s| - 1]) else s
  }

  function Trim(s: string): string {
    TrimEnd(TrimStart(s))
  }

  /** The number of bytes of the UTF-8 form, which is what `len` counts. */
  function Utf8Len(s: string): nat {
    if s == "" then 0
    else (if s[0] <= '\U{007F}' then 1 else if s[0] <= '\U{07FF}' then 2
          else if s[0] <= '\U{FFFF}' then 3 else 4) + Utf8Len(s[1..])
  }

  function Upper(c: char): char {
    if IsLower(c) then ((c as int) - 32) as char else c
  }

  function ToUpper(s: string): (r: string)
    ensures |r| == |s|
  {
    if s == "" then "" else [Upper(s[0])] + ToUpper(s[1..])
  }

  /** `split_once`: the text before and after the first separator. */
  function SplitOnce(s: string, sep: char): Option<(string, string)> {
    if s == "" then None
    else if s[0] == sep then Some(("", s[1..]))
    else match SplitOnce(s[1..], sep)
      case None => None
      case Some((a, b)) => Some(([s[0]] + a, b))
  }

  function Split(s: string, sep: char): (parts: seq<string>)
    ensures |parts| > 0
  {
    if s == "" then [""]
    else if s[0] == sep then [""] + Split(s[1..], sep)
    else var rest := Split(s[1..], sep); [[s[0]] + rest[0]] + rest[1..]
  }

  /** `str::replace`: non-overlapping occurrences, from the left. */
  function Replace(s: string, pattern: string, value: string): string
    requires pattern != ""
  {
    if s == "" then ""
    else if pattern <= s then value + Replace(s[|pattern|..], pattern, value)
    else [s[0]] + Replace(s[1..], pattern, value)
  }

  /** `clean_optional`: the trimmed text, or nothing when that is empty. */
  function CleanOptional(value: Option<string>): (r: Option<string>)
    ensures r.Some? ==> r.value != ""
  {
    match value
    case None => None
    case Some(s) => var t := Trim(s); if t == "" then None else Some(t)
  }

  /** A separator splits off exactly the text before it when that text has no separator. */
  lemma {:induction false} SplitOnceAt(a: string, sep: char, b: string)
    requires sep !in a
    ensures SplitOnce(a + [sep] + b, sep) == Some((a, b))
  {
    if a == "" {
      assert a + [sep] + b == [sep] + b;
    } else {
      assert (a + [sep] + b)[1..] == a[1..] + [sep] + b;
      assert [a[0]] + a[1..] == a;
      SplitOnceAt(a[1..], sep, b);
    }
  }

  /** What it splits is the text, and the first part has no separator. */
  lemma {:induction false} SplitOnceExact(s: string, sep: char)
    ensures SplitOnce(s, sep).Some? <==> sep in s
    ensures SplitOnce(s, sep).Some? ==>
      && s == SplitOnce(s, sep).value.0 + [sep] + SplitOnce(s, sep).value.1
      && sep !in SplitOnce(s, sep).value.0
  {
    if s != "" {
      SplitOnceExact(s[1..], sep);
      assert s == [s[0]] + s[1..];
    }
  }

  lemma {:induction false} SplitOnceNowhere(a: string, sep: char)
    requires sep !in a
    ensures SplitOnce(a, sep).None?
  {
    if a != "" {
      SplitOnceNowhere(a[1..], sep);
    }
  }

  function JoinWith(parts: seq<string>, sep: char): string
    requires parts != []
  {
    if |parts| == 1 then parts[0] else parts[0] + [sep] + JoinWith(parts[1..], sep)
  }

  /** Splitting loses nothing: the parts have no separator and make up the text when joined again. */
  lemma {:induction false} SplitJoins(s: string, sep: char)
    ensures JoinWith(Split(s, sep), sep) == s && forall part :: part in Split(s, sep) ==> sep !in part
  {
    if s != "" {
      SplitJoins(s[1..], sep);
      var rest := Split(s[1..], sep);
      assert rest[0] in rest && s == [s[0]] + s[1..];
      if s[0] == sep {
        assert ([""] + rest)[1..] == rest;
      } else {
        JoinPrepends(s[0], rest, sep);
      }
    }
  }

  lemma JoinPrepends(c: char, parts: seq<string>, sep: char)
    requires parts != []
    ensures JoinWith([[c] + parts[0]] + parts[1..], sep) == [c] + JoinWith(parts, sep)
  {
    assert ([[c] + parts[0]] + parts[1..])[1..] == parts[1..];
  }

  /** The same letter, perhaps in the other case. */
  predicate SameButCase(a: char, b: char) {
    || a == b
    || (IsLower(a) && IsUpper(b) && (a as int) == (b as int) + 32)
    || (IsUpper(a) && IsLower(b) && (b as int) == (a as int) + 32)
  }

  lemma {:induction false} ToUpperExact(a: string, b: string)
    ensures ToUpper(a) == ToUpper(b) <==> |a| == |b| && forall i :: 0 <= i < |a| ==> SameButCase(a[i], b[i])
  {
    if a != "" && b != "" {
      ToUpperExact(a[1..], b[1..]);
      UpperCase(a[0], b[0]);
      assert ToUpper(a)[0] == Upper(a[0]) && ToUpper(b)[0] == Upper(b[0]);
      assert ToUpper(a)[1..] == ToUpper(a[1..]) && ToUpper(b)[1..] == ToUpper(b[1..]);
      assert ToUpper(a) == [ToUpper(a)[0]] + ToUpper(a)[1..] && ToUpper(b) == [ToUpper(b)[0]] + ToUpper(b)[1..];
      if |a| == |b| {
        forall i | 0 < i < |a| ensures a[i] == a[1..][i - 1] && b[i] == b[1..][i - 1] {
        }
      }
    }
  }

  lemma UpperCase(a: char, b: char)
    ensures Upper(a) == Upper(b) <==> SameButCase(a, b)
  {
  }

  /** Trimming takes whitespace off both ends, all of it and nothing else. */
  lemma TrimExact(s: string) returns (before: string, after: string)
    ensures s == before + Trim(s) + after
    ensures forall c :: c in before || c in after ==> IsWhitespace(c)
    ensures Trim(s) != "" ==> !IsWhitespace(Trim(s)[0]) && !IsWhitespace(Trim(s)[|Trim(s)| - 1])
  {
    before := TrimStartExact(s);
    after := TrimEndExact(TrimStart(s));
  }

  lemma {:induction false} TrimStartExact(s: string) returns (before: string)
    ensures s == before + TrimStart(s) && forall c :: c in before ==> IsWhitespace(c)
    ensures TrimStart(s) != "" ==> !IsWhitespace(TrimStart(s)[0])
  {
    before := "";
    if s != "" && IsWhitespace(s[0]) {
      var rest := TrimStartExact(s[1..]);
      before := [s[0]] + rest;
    }
  }

  lemma {:induction false} TrimEndExact(s: string) returns (after: string)
    ensures s == TrimEnd(s) + after && forall c :: c in after ==> IsWhitespace(c)
    ensures TrimEnd(s) != "" ==> TrimEnd(s)[0] == s[0] && !IsWhitespace(TrimEnd(s)[|TrimEnd(s)| - 1])
  {
    after := "";
    if s != "" && IsWhitespace(s[|s| - 1]) {
      var rest := TrimEndExact(s[..|s| - 1]);
      after := rest + [s[|s| - 1]];
    }
  }
}
