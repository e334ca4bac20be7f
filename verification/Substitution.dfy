/** Image-template substitution of `src/webhooks.rs`: three passes that mean one simultaneous replacement. */
module Substitution {
  import opened Wrappers
  import opened Text

  datatype Rule = Rule(pattern: string, value: string)

  /** The first rule whose pattern starts the text. */
  function Match(s: string, rules: seq<Rule>): Option<Rule> {
    if rules == [] then None
    else if rules[0].pattern <= s then Some(rules[0])
    else Match(s, rules[1..])
  }

  /** One left-to-right pass that replaces every placeholder at once and never looks at inserted text. */
  function Substitute(s: string, rules: seq<Rule>): string
    requires forall r :: r in rules ==> r.pattern != ""
  {
    if s == "" then ""
    else match Match(s, rules)
      case Some(r) =>
        MatchIsRule(s, rules);
        r.value + Substitute(s[|r.pattern|..], rules)
      case None => [s[0]] + Substitute(s[1..], rules)
  }

  lemma {:induction false} MatchIsRule(s: string, rules: seq<Rule>)
    ensures Match(s, rules).Some? ==> Match(s, rules).value in rules && Match(s, rules).value.pattern <= s
  {
    if rules != [] && !(rules[0].pattern <= s) {
      MatchIsRule(s, rules[1..]);
    }
  }

  /** A name in braces with no brace inside. */
  predicate IsPlaceholder(p: string) {
    && |p| > 2 && p[0] == '{' && p[|p| - 1] == '}'
    && forall i :: 0 < i < |p| - 1 ==> p[i] != '{' && p[i] != '}'
  }

  /** Inserting `value` can neither contain a brace nor complete the placeholder `p`. */
  predicate IsInert(value: string, p: string) {
    value != "" && '{' !in value && '}' !in value && !Contains(p, value)
  }

  predicate PlaceholdersOnly(rules: seq<Rule>) {
    forall r :: r in rules ==> IsPlaceholder(r.pattern)
  }

  predicate InertFor(rules: seq<Rule>, p: string) {
    forall r :: r in rules ==> IsInert(r.value, p)
  }

  lemma {:induction false} NoRules(s: string)
    ensures Substitute(s, []) == s
  {
    if s != "" {
      NoRules(s[1..]);
    }
  }

  lemma {:induction false} MatchAppend(s: string, rules: seq<Rule>, last: Rule)
    ensures Match(s, rules + [last]) ==
      if Match(s, rules).Some? then Match(s, rules) else if last.pattern <= s then Some(last) else None
  {
    if rules == [] {
      assert rules + [last] == [last];
    } else {
      assert (rules + [last])[1..] == rules[1..] + [last];
      MatchAppend(s, rules[1..], last);
    }
  }

  /** Text without an opening brace is copied by a replacement of a placeholder. */
  lemma {:induction false} ReplaceSkips(head: string, tail: string, p: string, value: string)
    requires IsPlaceholder(p) && '{' !in head
    ensures Replace(head + tail, p, value) == head + Replace(tail, p, value)
  {
    if head == "" {
      assert head + tail == tail;
    } else {
      assert (head + tail)[0] == head[0] && head[0] in head;
      assert (head + tail)[1..] == head[1..] + tail;
      ReplaceSkips(head[1..], tail, p, value);
      assert head == [head[0]] + head[1..];
    }
  }

  lemma ReplaceHit(p: string, tail: string, value: string)
    requires p != ""
    ensures Replace(p + tail, p, value) == value + Replace(tail, p, value)
  {
    assert p <= p + tail && (p + tail)[|p|..] == tail;
  }

  lemma NoMatchWithoutBrace(s: string, rules: seq<Rule>)
    requires PlaceholdersOnly(rules) && s != "" && s[0] != '{'
    ensures Match(s, rules).None?
  {
    MatchIsRule(s, rules);
  }

  /** Text without an opening brace is copied by a substitution. */
  lemma {:induction false} SubstituteCopies(head: string, tail: string, rules: seq<Rule>)
    requires PlaceholdersOnly(rules) && '{' !in head
    ensures Substitute(head + tail, rules) == head + Substitute(tail, rules)
  {
    if head == "" {
      assert head + tail == tail;
    } else {
      var s := head + tail;
      assert s[0] == head[0] && head[0] in head && s[1..] == head[1..] + tail;
      NoMatchWithoutBrace(s, rules);
      SubstituteCopies(head[1..], tail, rules);
      assert head == [head[0]] + head[1..];
    }
  }

  lemma ContainedInTail(s: string, part: string)
    requires s != ""
    ensures Contains(s[1..], part) ==> Contains(s, part)
  {
  }

  lemma ConsPrefix(p: string, c: char, t: string)
    requires p != ""
    ensures p <= [c] + t <==> p[0] == c && p[1..] <= t
  {
    assert p == [p[0]] + p[1..];
    assert ([c] + t)[1..] == t;
  }

  /** Text that ends in a closing brace does not start with an inserted value that it does not contain. */
  lemma InsertedTextBlocks(q: string, value: string, after: string)
    requires q != "" && q[|q| - 1] == '}' && '}' !in value && !Contains(q, value)
    ensures !(q <= value + after)
  {
    if |q| <= |value| {
      assert (value + after)[|q| - 1] == value[|q| - 1] && value[|q| - 1] in value;
    } else {
      assert (value + after)[..|value|] == value;
    }
  }

  /**
   * The end of a placeholder that appears in substituted text was already there before: inserted text
   * has no brace, and it is not part of the placeholder.
   */
  lemma {:induction false} EndWasThere(s: string, rules: seq<Rule>, q: string)
    requires PlaceholdersOnly(rules) && q != "" && q[|q| - 1] == '}'
    requires forall r :: r in rules ==> '}' !in r.value && !Contains(q, r.value)
    ensures q <= Substitute(s, rules) ==> q <= s
  {
    if s != "" {
      MatchIsRule(s, rules);
      match Match(s, rules)
      case Some(r) =>
        InsertedTextBlocks(q, r.value, Substitute(s[|r.pattern|..], rules));
      case None =>
        ConsPrefix(q, s[0], Substitute(s[1..], rules));
        ConsPrefix(q, s[0], s[1..]);
        assert s == [s[0]] + s[1..];
        if |q| > 1 {
          forall r | r in rules ensures !Contains(q[1..], r.value) {
            ContainedInTail(q, r.value);
          }
          EndWasThere(s[1..], rules, q[1..]);
        }
    }
  }

  /** No placeholder comes into being where no rule matched. */
  lemma NothingNewAppears(s: string, rules: seq<Rule>, p: string)
    requires PlaceholdersOnly(rules) && IsPlaceholder(p) && InertFor(rules, p)
    requires s != "" && Match(s, rules).None? && !(p <= s)
    ensures !(p <= Substitute(s, rules))
  {
    forall r | r in rules ensures !Contains(p[1..], r.value) {
      ContainedInTail(p, r.value);
    }
    EndWasThere(s[1..], rules, p[1..]);
    ConsPrefix(p, s[0], Substitute(s[1..], rules));
    ConsPrefix(p, s[0], s[1..]);
    assert s == [s[0]] + s[1..];
  }

  /** A placeholder that no rule matches is copied as a whole. */
  lemma CopiesPlaceholder(s: string, rules: seq<Rule>, p: string)
    requires PlaceholdersOnly(rules) && IsPlaceholder(p) && p <= s && Match(s, rules).None?
    ensures Substitute(s, rules) == p + Substitute(s[|p|..], rules)
  {
    var tail := s[|p|..];
    assert s == [s[0]] + p[1..] + tail && s[1..] == p[1..] + tail;
    SubstituteCopies(p[1..], tail, rules);
  }

  /** One more pass over substituted text is one more rule of the substitution. */
  lemma {:induction false} PassIsRule(s: string, rules: seq<Rule>, p: string, value: string)
    requires PlaceholdersOnly(rules) && IsPlaceholder(p) && InertFor(rules, p)
    ensures Replace(Substitute(s, rules), p, value) == Substitute(s, rules + [Rule(p, value)])
    decreases |s|
  {
    var all := rules + [Rule(p, value)];
    if s != "" {
      MatchAppend(s, rules, Rule(p, value));
      MatchIsRule(s, rules);
      match Match(s, rules)
      case Some(r) =>
        var tail := s[|r.pattern|..];
        PassIsRule(tail, rules, p, value);
        ReplaceSkips(r.value, Substitute(tail, rules), p, value);
      case None =>
        if p <= s {
          var tail := s[|p|..];
          CopiesPlaceholder(s, rules, p);
          ReplaceHit(p, Substitute(tail, rules), value);
          PassIsRule(tail, rules, p, value);
        } else {
          NothingNewAppears(s, rules, p);
          PassIsRule(s[1..], rules, p, value);
        }
    }
  }

  /** `valid_commit_sha`; upper-case digits pass as well, whatever its comment says. */
  predicate ValidCommitSha(sha: string) {
    7 <= Utf8Len(sha) <= 64 && forall c :: c in sha ==> IsHexDigit(c)
  }

  function Take(s: string, n: nat): string {
    if |s| <= n then s else s[..n]
  }

  const SHA := "{sha}"
  const SHORT_SHA := "{shortSha}"
  const REF := "{ref}"

  /** `substitute_image`. */
  function SubstituteImage(template: string, sha: string, gitRef: string): string {
    Replace(Replace(Replace(template, SHA, sha), SHORT_SHA, Take(sha, 12)), REF, gitRef)
  }

  function ImageRules(sha: string, gitRef: string): (rules: seq<Rule>)
    ensures PlaceholdersOnly(rules)
  {
    [Rule(SHA, sha), Rule(SHORT_SHA, Take(sha, 12)), Rule(REF, gitRef)]
  }

  lemma {:induction false} HexLength(s: string)
    requires forall c :: c in s ==> IsHexDigit(c)
    ensures Utf8Len(s) == |s|
  {
    if s != "" {
      assert s[0] in s;
      HexLength(s[1..]);
    }
  }

  lemma {:induction false} TooShort(s: string, part: string)
    requires |s| < |part|
    ensures !Contains(s, part)
  {
    if s != "" {
      TooShort(s[1..], part);
    }
  }

  /** A text does not fit where every place for it would cover a character that it lacks. */
  lemma {:induction false} NoRoom(s: string, part: string, k: nat)
    requires k < |s| && |s| - |part| <= k < |part| && s[k] !in part
    ensures !Contains(s, part)
  {
    assert part[k] in part;
    if k == 0 {
      TooShort(s[1..], part);
    } else {
      NoRoom(s[1..], part, k - 1);
    }
  }

  /** Seven or more hexadecimal digits never fit into a placeholder. */
  lemma HexIsInert(value: string)
    requires |value| >= 7 && forall c :: c in value ==> IsHexDigit(c)
    ensures IsInert(value, SHORT_SHA) && IsInert(value, REF)
  {
    NoRoom(SHORT_SHA, value, 3);
    TooShort(REF, value);
  }

  lemma ThreePasses(template: string, a: Rule, b: Rule, c: Rule)
    requires IsPlaceholder(a.pattern) && IsPlaceholder(b.pattern) && IsPlaceholder(c.pattern)
    requires IsInert(a.value, b.pattern) && IsInert(a.value, c.pattern) && IsInert(b.value, c.pattern)
    ensures PlaceholdersOnly([a, b, c])
    ensures Replace(Replace(Replace(template, a.pattern, a.value), b.pattern, b.value), c.pattern, c.value)
         == Substitute(template, [a, b, c])
  {
    NoRules(template);
    PassIsRule(template, [], a.pattern, a.value);
    assert [] + [a] == [a];
    PassIsRule(template, [a], b.pattern, b.value);
    assert [a] + [b] == [a, b];
    PassIsRule(template, [a, b], c.pattern, c.value);
    assert [a, b] + [c] == [a, b, c];
  }

  /** For every template and branch, and every sha that passes the gate, three passes are one. */
  lemma PassesAreSimultaneous(template: string, sha: string, gitRef: string)
    requires ValidCommitSha(sha)
    ensures SubstituteImage(template, sha, gitRef) == Substitute(template, ImageRules(sha, gitRef))
  {
    HexLength(sha);
    HexIsInert(sha);
    HexIsInert(Take(sha, 12));
    ThreePasses(template, Rule(SHA, sha), Rule(SHORT_SHA, Take(sha, 12)), Rule(REF, gitRef));
  }

  /** Three passes and one substitution agree, for every template and branch. */
  ghost predicate PassesAgree(sha: string) {
    forall template, gitRef :: SubstituteImage(template, sha, gitRef) == Substitute(template, ImageRules(sha, gitRef))
  }

  /** The digits do not fit between the braces of a placeholder that a later pass looks for. */
  predicate FitsNowhere(sha: string) {
    sha != "" && !Contains(SHORT_SHA, sha) && !Contains(REF, sha)
  }

  /** A gap in the middle of other text: replacing its placeholder closes it, and nothing else happens. */
  lemma GapIsClosed(q: string, x: string, w: string, y: string)
    requires IsPlaceholder(q) && x != "" && '{' !in x[1..] && '{' !in y && !(q <= x + (q + y))
    ensures Replace(x + (q + y), q, w) == x + (w + y)
  {
    var template := x + (q + y);
    assert template != "" && template[0] == x[0] && template[1..] == x[1..] + (q + y);
    ReplaceSkips(x[1..], q + y, q, w);
    ReplaceHit(q, y, w);
    assert y + "" == y;
    ReplaceSkips(y, "", q, w);
    assert [x[0]] + (x[1..] + (w + y)) == x + (w + y);
  }

  lemma SubstituteMiss(s: string, rules: seq<Rule>)
    requires PlaceholdersOnly(rules) && s != "" && Match(s, rules).None?
    ensures Substitute(s, rules) == [s[0]] + Substitute(s[1..], rules)
  {
  }

  lemma SubstituteHit(y: string, rules: seq<Rule>)
    requires PlaceholdersOnly(rules) && rules != []
    ensures Substitute(rules[0].pattern + y, rules) == rules[0].value + Substitute(y, rules)
  {
    var s := rules[0].pattern + y;
    assert rules[0].pattern <= s && s != "" && s[|rules[0].pattern|..] == y;
    assert Match(s, rules) == Some(rules[0]);
  }

  /** Whichever rule it is of, a placeholder that no earlier rule starts with gives its value. */
  lemma SubstituteAt(n: nat, y: string, rules: seq<Rule>)
    requires PlaceholdersOnly(rules) && n < |rules| && Match(rules[n].pattern + y, rules) == Some(rules[n])
    ensures Substitute(rules[n].pattern + y, rules) == rules[n].value + Substitute(y, rules)
  {
    var s := rules[n].pattern + y;
    assert s != "" && s[|rules[n].pattern|..] == y;
  }

  /** The rule of an image that each placeholder belongs to. */
  lemma ImageRuleOf(sha: string, gitRef: string, y: string)
    ensures var rules := ImageRules(sha, gitRef);
      && Match("{sha}" + y, rules) == Some(rules[0]) && Match("{shortSha}" + y, rules) == Some(rules[1])
      && Match("{ref}" + y, rules) == Some(rules[2])
  {
    var rules := ImageRules(sha, gitRef);
    assert SHA <= "{sha}" + y && SHORT_SHA <= "{shortSha}" + y && REF <= "{ref}" + y;
    assert ("{shortSha}" + y)[2] == 'h' && ("{ref}" + y)[1] == 'r' && SHA[1] == 's' && SHORT_SHA[1] == 's';
    assert ("{shortSha}" + y)[3] == 'o' && SHA[3] == 'a';
    assert rules[1..] == [rules[1], rules[2]] && rules[1..][1..] == [rules[2]];
    assert Match("{ref}" + y, [rules[2]]) == Some(rules[2]);
  }

  /** What a template reads as: the whole sha, its first twelve digits, and the ref. */
  lemma TemplateReads(a: string, b: string, m: string, z: string, sha: string, gitRef: string)
    requires '{' !in a && '{' !in b && '{' !in m && '{' !in z
    ensures Substitute(a + ("{sha}" + (b + ("{shortSha}" + (m + ("{ref}" + z))))), ImageRules(sha, gitRef)) ==
      a + (sha + (b + ((if |sha| <= 12 then sha else sha[..12]) + (m + (gitRef + z)))))
  {
    var rules := ImageRules(sha, gitRef);
    SubstituteCopies(z, "", rules);
    assert z + "" == z;
    ImageRuleOf(sha, gitRef, z);
    SubstituteAt(2, z, rules);
    SubstituteCopies(m, "{ref}" + z, rules);
    ImageRuleOf(sha, gitRef, m + ("{ref}" + z));
    SubstituteAt(1, m + ("{ref}" + z), rules);
    SubstituteCopies(b, "{shortSha}" + (m + ("{ref}" + z)), rules);
    ImageRuleOf(sha, gitRef, b + ("{shortSha}" + (m + ("{ref}" + z))));
    SubstituteAt(0, b + ("{shortSha}" + (m + ("{ref}" + z))), rules);
    SubstituteCopies(a, "{sha}" + (b + ("{shortSha}" + (m + ("{ref}" + z)))), rules);
  }

  lemma SubstituteAfter(x: string, rest: string, rules: seq<Rule>)
    requires PlaceholdersOnly(rules) && x != "" && '{' !in x[1..] && Match(x + rest, rules).None?
    ensures Substitute(x + rest, rules) == x + Substitute(rest, rules)
  {
    assert (x + rest)[0] == x[0] && (x + rest)[1..] == x[1..] + rest;
    SubstituteMiss(x + rest, rules);
    SubstituteCopies(x[1..], rest, rules);
    assert [x[0]] + (x[1..] + Substitute(rest, rules)) == x + Substitute(rest, rules);
  }

  /** The same for a substitution whose first rule is that placeholder. */
  lemma GapIsSubstituted(rules: seq<Rule>, x: string, y: string)
    requires PlaceholdersOnly(rules) && rules != [] && x != "" && '{' !in x[1..] && '{' !in y
    requires Match(x + (rules[0].pattern + y), rules).None?
    ensures Substitute(x + (rules[0].pattern + y), rules) == x + (rules[0].value + y)
  {
    SubstituteAfter(x, rules[0].pattern + y, rules);
    SubstituteHit(y, rules);
    assert y + "" == y;
    SubstituteCopies(y, "", rules);
  }

  /** No placeholder matches where the gap's own brace comes first. */
  lemma GapMatchesNothing(q: string, x: string, y: string, rules: seq<Rule>)
    requires PlaceholdersOnly(rules) && IsPlaceholder(q) && x != "" && forall r :: r in rules ==> !(r.pattern <= x)
    ensures Match(x + (q + y), rules).None?
  {
    var template := x + (q + y);
    MatchIsRule(template, rules);
    forall r | r in rules ensures !(r.pattern <= template) {
      assert template[|x|] == '{';
      if |r.pattern| <= |x| {
        assert template[..|r.pattern|] == x[..|r.pattern|];
      } else {
        assert r.pattern[|x|] != '{';
      }
    }
  }

  /** A template with a gap that the sha closes to a placeholder: the passes and the substitution differ. */
  lemma GapTellsThemApart(x: string, sha: string, y: string, gitRef: string)
    requires x != "" && '{' !in x[1..] && '{' !in y
    requires !(SHA <= x) && !(SHORT_SHA <= x) && !(REF <= x)
    ensures var template := x + (SHA + y);
      && SubstituteImage(template, sha, gitRef)
           == Replace(Replace(x + (sha + y), SHORT_SHA, Take(sha, 12)), REF, gitRef)
      && Substitute(template, ImageRules(sha, gitRef)) == x + (sha + y)
  {
    var rules := ImageRules(sha, gitRef);
    GapMatchesNothing(SHA, x, y, rules);
    assert !(SHA <= x + (SHA + y)) by {
      GapMatchesNothing(SHA, x, y, [Rule(SHA, sha)]);
    }
    GapIsClosed(SHA, x, sha, y);
    GapIsSubstituted(rules, x, y);
  }

  /** The five texts of hexadecimal digits that fit into a placeholder, each with the gap it closes. */
  lemma {:induction false} HexFits(sha: string)
    requires (forall c :: c in sha ==> IsHexDigit(c)) && !FitsNowhere(sha)
    ensures sha == "" || sha == "e" || sha == "f" || sha == "ef" || sha == "a"
  {
    if sha != "" {
      if Contains(REF, sha) {
        var i := ContainsAt(REF, sha);
        HexWindow(REF, sha, i);
      } else {
        var i := ContainsAt(SHORT_SHA, sha);
        HexWindow(SHORT_SHA, sha, i);
      }
    }
  }

  lemma {:induction false} ContainsAt(s: string, part: string) returns (i: nat)
    requires Contains(s, part)
    ensures i + |part| <= |s| && s[i..i + |part|] == part
  {
    if part <= s {
      i := 0;
    } else {
      i := ContainsAt(s[1..], part);
      i := i + 1;
    }
  }

  lemma HexWindow(p: string, sha: string, i: nat)
    requires (p == REF || p == SHORT_SHA) && sha != "" && i + |sha| <= |p| && p[i..i + |sha|] == sha
    requires forall c :: c in sha ==> IsHexDigit(c)
    ensures sha == "e" || sha == "f" || sha == "ef" || sha == "a"
  {
    forall j | i <= j < i + |sha| ensures IsHexDigit(p[j]) {
      assert p[j] == sha[j - i];
    }
    assert IsHexDigit(p[i]) && IsHexDigit(p[i + |sha| - 1]);
    if p == REF {
      assert !IsHexDigit(p[0]) && !IsHexDigit(p[1]) && !IsHexDigit(p[4]);
      assert 2 <= i && i + |sha| <= 4;
    } else {
      forall j | 0 <= j < 10 && j != 8 ensures !IsHexDigit(p[j]) {
      }
      assert i == 8 && i + |sha| - 1 == 8;
    }
  }

  /** A replacement that hits the whole text. */
  lemma ReplaceWhole(p: string, value: string)
    requires p != ""
    ensures Replace(p, p, value) == value
  {
    ReplaceHit(p, "", value);
    assert p + "" == p && value + "" == value;
  }

  lemma ReplaceAbsent(s: string, p: string, value: string)
    requires IsPlaceholder(p) && s != "" && '{' !in s[1..] && !(p <= s)
    ensures Replace(s, p, value) == s
  {
    assert s[1..] + "" == s[1..];
    ReplaceSkips(s[1..], "", p, value);
    assert s == [s[0]] + s[1..];
  }

  lemma RefIsReplaced(short: string)
    ensures Replace(Replace(REF, SHORT_SHA, short), REF, "main") == "main"
  {
    assert REF[1] != SHORT_SHA[1];
    ReplaceAbsent(REF, SHORT_SHA, short);
    ReplaceWhole(REF, "main");
  }

  lemma ShortShaIsReplaced(short: string)
    requires short == "a"
    ensures Replace(Replace(SHORT_SHA, SHORT_SHA, short), REF, "main") == short
  {
    ReplaceWhole(SHORT_SHA, short);
    assert short[0] != REF[0];
    ReplaceAbsent(short, REF, "main");
  }

  lemma GapDisagrees(x: string, sha: string, y: string)
    requires x != "" && '{' !in x[1..] && '{' !in y && !(SHA <= x) && !(SHORT_SHA <= x) && !(REF <= x)
    requires x + (sha + y) == REF || (x + (sha + y) == SHORT_SHA && sha == "a")
    ensures !PassesAgree(sha)
  {
    var template := x + (SHA + y);
    GapTellsThemApart(x, sha, y, "main");
    if x + (sha + y) == REF {
      RefIsReplaced(Take(sha, 12));
    } else {
      ShortShaIsReplaced(Take(sha, 12));
    }
    assert SubstituteImage(template, sha, "main") != Substitute(template, ImageRules(sha, "main"));
  }

  lemma FittingShaDisagrees(sha: string)
    requires sha == "" || sha == "e" || sha == "f" || sha == "ef" || sha == "a"
    ensures !PassesAgree(sha)
  {
    if sha == "a" {
      assert "{shortSh"[3] != SHA[3];
      GapDisagrees("{shortSh", sha, "}");
    } else if sha == "f" {
      GapDisagrees("{re", sha, "}");
    } else if sha == "ef" {
      GapDisagrees("{r", sha, "}");
    } else if sha == "e" {
      GapDisagrees("{r", sha, "f}");
    } else {
      GapDisagrees("{r", sha, "ef}");
    }
  }

  lemma UnfittingShaAgrees(sha: string)
    requires (forall c :: c in sha ==> IsHexDigit(c)) && FitsNowhere(sha)
    ensures PassesAgree(sha)
  {
    forall template, gitRef
      ensures SubstituteImage(template, sha, gitRef) == Substitute(template, ImageRules(sha, gitRef))
    {
      TakeFitsNowhere(sha);
      ThreePasses(template, Rule(SHA, sha), Rule(SHORT_SHA, Take(sha, 12)), Rule(REF, gitRef));
    }
  }

  lemma TakeFitsNowhere(sha: string)
    requires (forall c :: c in sha ==> IsHexDigit(c)) && FitsNowhere(sha)
    ensures IsInert(sha, SHORT_SHA) && IsInert(sha, REF) && IsInert(Take(sha, 12), REF)
  {
    if |sha| > 12 {
      TooShort(REF, Take(sha, 12));
    }
  }

  /**
   * For every text of hexadecimal digits the three passes mean one substitution, for all templates and
   * branches, if and only if it fits into neither of the later placeholders. The gate's seven digits
   * are one way to make sure; the texts that fail are "", "a", "e", "f" and "ef".
   */
  lemma PassesAgreeIff(sha: string)
    requires forall c :: c in sha ==> IsHexDigit(c)
    ensures PassesAgree(sha) <==> FitsNowhere(sha)
    ensures ValidCommitSha(sha) ==> FitsNowhere(sha)
  {
    if FitsNowhere(sha) {
      UnfittingShaAgrees(sha);
    } else {
      HexFits(sha);
      FittingShaDisagrees(sha);
    }
    if ValidCommitSha(sha) {
      HexLength(sha);
      HexIsInert(sha);
    }
  }
}
