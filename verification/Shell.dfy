/** The command lines that `src/exec.rs` writes to the build log, read back by POSIX quoting rules. */
module Shell {
  import opened Wrappers
  import opened Text

  predicate IsPlain(c: char) {
    IsAlphanumeric(c) || c == '/' || c == '.' || c == '_' || c == '-' || c == ':' || c == '=' || c == '@'
  }

  /** `shellish`: plain words as they are, everything else in single quotes. */
  function Shellish(value: string): string {
    if forall c :: c in value ==> IsPlain(c) then value
    else "'" + Replace(value, "'", "'\\''") + "'"
  }

  function Join(words: seq<string>): string {
    if words == [] then ""
    else if |words| == 1 then Shellish(words[0])
    else Shellish(words[0]) + " " + Join(words[1..])
  }

  /** `printable_command`. */
  function PrintableCommand(program: string, args: seq<string>): string {
    Join([program] + args)
  }

  predicate IsBlank(c: char) {
    c == ' ' || c == '\t'
  }

  /** Characters that stand for something other than themselves outside quotes. */
  predicate IsSpecial(c: char) {
    || c == '|' || c == '&' || c == ';' || c == '<' || c == '>' || c == '(' || c == ')' || c == '$' || c == '`'
    || c == '"' || c == '*' || c == '?' || c == '[' || c == '#' || c == '~' || c == '\n'
  }

  /**
   * The words of a command line by sections 2.2.1 (escape character) and 2.2.2 (single-quotes) of the
   * Shell Command Language of IEEE Std 1003.1; `word` is the word being read, if one has begun. There
   * is no result where any other rule of the language would apply.
   */
  function Unquoted(s: string, word: Option<string>): Option<seq<string>>
    decreases |s|
  {
    if s == "" then Some(if word.Some? then [word.value] else [])
    else if IsBlank(s[0]) then
      (match Unquoted(s[1..], None)
       case Some(words) => Some((if word.Some? then [word.value] else []) + words)
       case None => None)
    else if s[0] == '\'' then Quoted(s[1..], word.GetOr(""))
    else if s[0] == '\\' then
      if |s| == 1 then None
      else if s[1] == '\n' then Unquoted(s[2..], word)
      else Unquoted(s[2..], Some(word.GetOr("") + [s[1]]))
    else if IsSpecial(s[0]) then None
    else Unquoted(s[1..], Some(word.GetOr("") + [s[0]]))
  }

  function Quoted(s: string, word: string): Option<seq<string>>
    decreases |s|
  {
    if s == "" then None
    else if s[0] == '\'' then Unquoted(s[1..], Some(word))
    else Quoted(s[1..], word + [s[0]])
  }

  function Tokenize(s: string): Option<seq<string>> {
    Unquoted(s, None)
  }

  lemma ReadPlainChar(c: char, rest: string, word: Option<string>)
    requires IsPlain(c)
    ensures Unquoted([c] + rest, word) == Unquoted(rest, Some(word.GetOr("") + [c]))
  {
    assert ([c] + rest)[0] == c && ([c] + rest)[1..] == rest;
  }

  lemma {:induction false} ReadPlain(value: string, rest: string, word: Option<string>)
    requires forall c :: c in value ==> IsPlain(c)
    ensures Unquoted(value + rest, word) ==
      Unquoted(rest, if value == "" then word else Some(word.GetOr("") + value))
  {
    if value == "" {
      assert value + rest == rest;
    } else {
      assert IsPlain(value[0]) && value + rest == [value[0]] + (value[1..] + rest);
      ReadPlainChar(value[0], value[1..] + rest, word);
      ReadPlain(value[1..], rest, Some(word.GetOr("") + [value[0]]));
      assert word.GetOr("") + [value[0]] + value[1..] == word.GetOr("") + value;
      assert value[1..] == "" ==> value == [value[0]];
    }
  }

  function Escaped(value: string): string {
    Replace(value, "'", "'\\''")
  }

  /** A closing quote, an escaped quote and an opening quote stand for one quote. */
  lemma ReadEscapedQuote(rest: string, word: string)
    ensures Quoted("'\\''" + rest, word) == Quoted(rest, word + "'")
  {
    var s, t, u := "'\\''" + rest, "\\''" + rest, "'" + rest;
    assert s[0] == '\'' && s[1..] == t && t[0] == '\\' && t[1] == '\'' && t[2..] == u && u[0] == '\'' && u[1..] == rest;
    assert Quoted(s, word) == Unquoted(t, Some(word));
    assert Unquoted(t, Some(word)) == Unquoted(u, Some(word + "'"));
  }

  lemma {:induction false} ReadQuoted(value: string, rest: string, word: string)
    ensures Quoted(Escaped(value) + "'" + rest, word) == Unquoted(rest, Some(word + value))
  {
    if value == "" {
      assert Escaped(value) + "'" + rest == "'" + rest;
      assert ("'" + rest)[1..] == rest && word + value == word;
    } else {
      ReadQuoted(value[1..], rest, word + [value[0]]);
      assert word + [value[0]] + value[1..] == word + value;
      if value[0] == '\'' {
        assert "'" <= value && value[|"'"|..] == value[1..];
        assert Escaped(value) + "'" + rest == "'\\''" + (Escaped(value[1..]) + "'" + rest);
        ReadEscapedQuote(Escaped(value[1..]) + "'" + rest, word);
      } else {
        assert Escaped(value) == [value[0]] + Escaped(value[1..]);
        var s := Escaped(value) + "'" + rest;
        assert s[0] == value[0] && s[1..] == Escaped(value[1..]) + "'" + rest;
      }
    }
  }

  /** Reading a printed word gives the word, or nothing at all when it was empty. */
  lemma ReadWord(value: string, rest: string)
    ensures Unquoted(Shellish(value) + rest, None) == Unquoted(rest, if value == "" then None else Some(value))
  {
    if forall c :: c in value ==> IsPlain(c) {
      ReadPlain(value, rest, None);
      assert "" + value == value;
    } else {
      var s := Shellish(value) + rest;
      assert s == "'" + (Escaped(value) + "'" + rest);
      assert s[0] == '\'' && s[1..] == Escaped(value) + "'" + rest;
      ReadQuoted(value, rest, "");
      assert "" + value == value;
    }
  }

  function NonEmpty(words: seq<string>): seq<string> {
    if words == [] then []
    else (if words[0] == "" then [] else [words[0]]) + NonEmpty(words[1..])
  }

  /** Tokenising a printed list of words gives back exactly its words that are not empty. */
  lemma {:induction false} PrintedWordsReadBack(words: seq<string>)
    ensures Tokenize(Join(words)) == Some(NonEmpty(words))
  {
    if words == [] {
    } else if |words| == 1 {
      ReadWord(words[0], "");
      assert Shellish(words[0]) + "" == Shellish(words[0]);
      assert words[1..] == [] && NonEmpty(words[1..]) == [];
      assert NonEmpty(words) == if words[0] == "" then [] else [words[0]];
    } else {
      PrintedWordsReadBack(words[1..]);
      var rest := " " + Join(words[1..]);
      assert Join(words) == Shellish(words[0]) + rest;
      ReadWord(words[0], rest);
      assert rest[1..] == Join(words[1..]);
    }
  }

  lemma {:induction false} NonEmptyIff(words: seq<string>)
    ensures |NonEmpty(words)| <= |words|
    ensures NonEmpty(words) == words <==> "" !in words
  {
    if words != [] {
      NonEmptyIff(words[1..]);
      assert words == [words[0]] + words[1..];
      if words[0] != "" {
        assert NonEmpty(words) == words <==> NonEmpty(words)[1..] == words[1..];
      }
    }
  }

  /** The logged command line determines program and arguments exactly when none of them is empty. */
  lemma PrintedCommandReadsBackIff(program: string, args: seq<string>)
    ensures Tokenize(PrintableCommand(program, args)) == Some([program] + args) <==> program != "" && "" !in args
  {
    PrintedWordsReadBack([program] + args);
    NonEmptyIff([program] + args);
    assert ([program] + args)[0] == program;
    assert forall w :: w in [program] + args <==> w == program || w in args;
  }
}
