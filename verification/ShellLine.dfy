/** The command line built for ssh, and the remote shell's reading of it. */
module ShellLine {
  import opened Records

  // ---------------------------------------------------------------- building

  /** Every single quote replaced by: close, escaped quote, open. */
  function Escaped(s: string): string {
    if s == "" then "" else (if s[0] == '\'' then "'\\''" else [s[0]]) + Escaped(s[1..])
  }

  function ShellQuote(s: string): string { "'" + Escaped(s) + "'" }

  function Join(parts: seq<string>, sep: string): string {
    if parts == [] then "" else if |parts| == 1 then parts[0] else parts[0] + sep + Join(parts[1..], sep)
  }

  function Quoted(words: seq<string>): seq<string> {
    if words == [] then [] else [ShellQuote(words[0])] + Quoted(words[1..])
  }

  // ---------------------------------------------------------------- reading

  datatype Mode = Plain | Single | Double

  predicate Blank(c: char) { c == ' ' || c == '\t' }

  /** Unquoted, these start an operator, an expansion, a pattern, a comment or an assignment. */
  predicate Special(c: char) { c in "\n|&;<>()$`*?[#~=%{}!" }

  function Text(word: Option<string>): string { if word.Some? then word.value else "" }

  function Push(word: Option<string>, c: char): Option<string> { Some(Text(word) + [c]) }

  function Prepend(w: string, rest: Option<seq<string>>): Option<seq<string>> {
    if rest.Some? then Some([w] + rest.value) else None
  }

  /**
   * Word splitting by the quoting rules of POSIX.1-2017 Shell Command Language, section 2.2.
   * None when the line holds NUL, ends inside quotes or uses anything beyond quoting.
   */
  function Split(s: string, mode: Mode, word: Option<string>): Option<seq<string>>
    decreases |s|
  {
    if s == "" then
      if mode.Plain? then Some(if word.Some? then [word.value] else []) else None
    else
      var c, rest := s[0], s[1..];
      if c == '\0' then None
      else match mode
        case Single => if c == '\'' then Split(rest, Plain, word) else Split(rest, Single, Push(word, c))
        case Double =>
          if c == '"' then Split(rest, Plain, word)
          else if c == '$' || c == '`' then None
          else if c == '\\' && rest != "" && rest[0] == '\n' then Split(rest[1..], Double, word)
          else if c == '\\' && rest != "" && rest[0] in "$`\"\\" then Split(rest[1..], Double, Push(word, rest[0]))
          else Split(rest, Double, Push(word, c))
        case Plain =>
          if Blank(c) then
            if word.Some? then Prepend(word.value, Split(rest, Plain, None)) else Split(rest, Plain, None)
          else if c == '\'' then Split(rest, Single, Some(Text(word)))
          else if c == '"' then Split(rest, Double, Some(Text(word)))
          else if c == '\\' then
            if rest == "" || rest[0] == '\0' then None
            else if rest[0] == '\n' then Split(rest[1..], Plain, word)
            else Split(rest[1..], Plain, Push(word, rest[0]))
          else if Special(c) then None
          else Split(rest, Plain, Push(word, c))
  }

  function Words(line: string): Option<seq<string>> { Split(line, Plain, None) }

  // ---------------------------------------------------------------- reading what was built

  predicate NulFree(words: seq<string>) { forall w :: w in words ==> '\0' !in w }

  /** Inside quotes, escaped text up to the closing quote reads back as the text. */
  lemma {:induction false} ReadQuoted(s: string, w: string, rest: string)
    requires '\0' !in s
    ensures Split(Escaped(s) + "'" + rest, Single, Some(w)) == Split(rest, Plain, Some(w + s))
  {
    if s == "" {
      assert Escaped(s) + "'" + rest == "'" + rest;
      assert ("'" + rest)[1..] == rest;
      assert w + s == w;
    } else {
      var c, tail := s[0], Escaped(s[1..]) + "'" + rest;
      assert w + s == (w + [c]) + s[1..];
      if c == '\'' {
        assert Escaped(s) + "'" + rest == "'\\''" + tail;
        ReadEscape(w, tail);
      } else {
        assert Escaped(s) + "'" + rest == [c] + tail;
        assert ([c] + tail)[1..] == tail;
      }
      ReadQuoted(s[1..], w + [c], rest);
    }
  }

  lemma ReadEscape(w: string, tail: string)
    ensures Split("'\\''" + tail, Single, Some(w)) == Split(tail, Single, Some(w + ['\'']))
  {
    var s := "'\\''" + tail;
    var s1, s2, s3 := s[1..], "''" + tail, "'" + tail;
    assert s1[0] == '\\' && s1[1..] == s2 && s2[0] == '\'' && s2[1..] == s3 && s3[0] == '\'' && s3[1..] == tail;
    assert Split(s, Single, Some(w)) == Split(s1, Plain, Some(w));
    assert Split(s1, Plain, Some(w)) == Split(s3, Plain, Push(Some(w), '\''));
    assert Split(s3, Plain, Some(w + ['\''])) == Split(tail, Single, Some(w + ['\'']));
  }

  lemma {:induction false} ReadJoined(words: seq<string>)
    requires NulFree(words)
    ensures Split(Join(Quoted(words), " "), Plain, None) == Some(words)
  {
    if words != [] {
      var w, rest := words[0], Quoted(words[1..]);
      assert w in words;
      var after := if rest == [] then "" else " " + Join(rest, " ");
      var line := Join(Quoted(words), " ");
      assert Quoted(words)[1..] == rest;
      assert line == "'" + (Escaped(w) + "'" + after);
      assert line[1..] == Escaped(w) + "'" + after;
      ReadQuoted(w, "", after);
      assert "" + w == w;
      ReadJoined(words[1..]);
      if rest == [] {
        assert words == [w];
      } else {
        assert after[1..] == Join(rest, " ");
        assert words == [w] + words[1..];
      }
    }
  }

  /** NUL cannot pass through any line. */
  lemma {:induction false} NulRejected(s: string, mode: Mode, word: Option<string>)
    requires '\0' in s
    ensures Split(s, mode, word).None?
    decreases |s|
  {
    if s[0] != '\0' {
      assert s == [s[0]] + s[1..];
      forall m, w ensures Split(s[1..], m, w).None? { NulRejected(s[1..], m, w); }
      if s[0] == '\\' && s[1] != '\0' {
        assert s[1..] == [s[1]] + s[2..];
        forall m, w ensures Split(s[2..], m, w).None? { NulRejected(s[2..], m, w); }
        assert s[1..][1..] == s[2..];
      }
    }
  }

  lemma {:induction false} NulStays(words: seq<string>)
    requires !NulFree(words)
    ensures '\0' in Join(Quoted(words), " ")
  {
    var rest := Quoted(words[1..]);
    assert Quoted(words)[1..] == rest;
    if '\0' in words[0] {
      NulEscaped(words[0]);
      assert '\0' in ShellQuote(words[0]);
    } else {
      assert words == [words[0]] + words[1..];
      NulStays(words[1..]);
    }
  }

  lemma {:induction false} NulEscaped(s: string)
    requires '\0' in s
    ensures '\0' in Escaped(s)
  {
    if s[0] != '\0' {
      assert s == [s[0]] + s[1..];
      NulEscaped(s[1..]);
    }
  }

  /** The remote shell sees `vci`, the name and the arguments, whatever they contain, exactly when none has NUL. */
  method BuildRemoteCommand(name: string, args: seq<string>) returns (line: string)
    ensures Words(line) == if NulFree([name] + args) then Some(["vci", name] + args) else None
  {
    var parts := [ShellQuote(name)];
    for i := 0 to |args|
      invariant parts == Quoted([name] + args[..i])
    {
      QuotedSnoc([name] + args[..i], args[i]);
      assert [name] + args[..i] + [args[i]] == [name] + args[..i+1];
      parts := parts + [ShellQuote(args[i])];
    }
    assert args[..|args|] == args;
    line := "vci " + Join(parts, " ");
    ReadLine([name] + args);
    assert ["vci"] + ([name] + args) == ["vci", name] + args;
  }

  lemma {:induction false} QuotedSnoc(words: seq<string>, w: string)
    ensures Quoted(words + [w]) == Quoted(words) + [ShellQuote(w)]
  {
    if words != [] {
      QuotedSnoc(words[1..], w);
      assert (words + [w])[1..] == words[1..] + [w];
    }
  }

  lemma ReadLine(words: seq<string>)
    ensures Words("vci " + Join(Quoted(words), " ")) == if NulFree(words) then Some(["vci"] + words) else None
  {
    var tail := Join(Quoted(words), " ");
    var line := "vci " + tail;
    if NulFree(words) {
      ReadJoined(words);
      ReadName(tail);
    } else {
      NulStays(words);
      NulRejected(line, Plain, None);
    }
  }

  lemma ReadName(tail: string)
    ensures Words("vci " + tail) == Prepend("vci", Split(tail, Plain, None))
  {
    var s3 := " " + tail;
    assert s3[1..] == tail && Split(s3, Plain, Some("vci")) == Prepend("vci", Split(tail, Plain, None));
    hide Split;
    assert "vci " + tail == ['v'] + ("ci " + tail);
    assert "ci " + tail == ['c'] + ("i " + tail) && "i " + tail == ['i'] + s3;
    ReadLetter('v', "ci " + tail, None);
    ReadLetter('c', "i " + tail, Some("v"));
    ReadLetter('i', s3, Some("vc"));
    assert "" + ['v'] == "v" && "v" + ['c'] == "vc" && "vc" + ['i'] == "vci";
  }

  lemma ReadLetter(c: char, rest: string, word: Option<string>)
    requires 'a' <= c <= 'z'
    ensures Split([c] + rest, Plain, word) == Split(rest, Plain, Push(word, c))
  {
    assert ([c] + rest)[1..] == rest;
    assert !Special(c);
  }
}
