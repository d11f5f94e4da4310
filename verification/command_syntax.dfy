/**
  The text-level part of the dispatcher: recognising a command line with the pattern
  `^/(\w+)(?:=(.*))?$` (as `re.search` applies it) and splitting a `day_range` argument into
  company codes.
 */
module CommandSyntax {
  import opened Wrappers
  import opened Payloads

  // ------------------------------------------------------------ the pattern

  /** `\w`: letters, digits and the underscore (ASCII only in this model). */
  predicate IsWordChar(c: char) {
    ('a' <= c <= 'z') || ('A' <= c <= 'Z') || ('0' <= c <= '9') || c == '_'
  }

  predicate AllWord(s: string) {
    forall i :: 0 <= i < |s| ==> IsWordChar(s[i])
  }

  /** What `.` matches: anything but a line feed. */
  predicate NoNewline(s: string) {
    forall i :: 0 <= i < |s| ==> s[i] != '\n'
  }

  /** The length of the longest run of word characters at the start of `s` (what `\w+` takes). */
  function WordPrefixLength(s: string): (k: nat)
    ensures k <= |s|
    ensures AllWord(s[..k])
    ensures k < |s| ==> !IsWordChar(s[k])
  {
    if |s| == 0 || !IsWordChar(s[0]) then 0
    else
      var k := WordPrefixLength(s[1..]);
      assert s[..k + 1] == [s[0]] + s[1..][..k];
      k + 1
  }

  /**
    `COMMAND_REGEX.search(text)`: the command name (group 1) and the argument (group 2, None
    when there is no `=`), or None when the text is not a command. `$` also matches just before
    a final line feed, and `.*` stops at a line feed.
   */
  function MatchCommand(text: string): Option<(string, Option<string>)>
  {
    if |text| == 0 || text[0] != '/' then None
    else
      var rest := text[1..];
      var k := WordPrefixLength(rest);
      if k == 0 then None else MatchTail(rest[..k], rest[k..])
  }

  /** The part of the pattern after `\w+`: `(?:=(.*))?$`. */
  function MatchTail(name: string, tail: string): Option<(string, Option<string>)>
  {
    if tail == "" || tail == "\n" then Some((name, None))
    else if tail[0] != '=' then None
    else
      var value := tail[1..];
      if NoNewline(value) then Some((name, Some(value)))
      else if value[|value| - 1] == '\n' && NoNewline(value[..|value| - 1]) then
        Some((name, Some(value[..|value| - 1])))
      else None
  }

  /** The command line a name and an optional argument spell. */
  function Render(name: string, arg: Option<string>): string {
    "/" + name + (if arg.Some? then "=" + arg.value else "")
  }

  /** The grammar, stated declaratively: which texts the pattern derives, with which groups. */
  ghost predicate Derives(text: string, name: string, arg: Option<string>) {
    && |name| > 0 && AllWord(name)
    && (arg.Some? ==> NoNewline(arg.value))
    && (text == Render(name, arg) || text == Render(name, arg) + "\n")
  }

  /** Every match the recogniser reports is a derivation of the grammar. */
  lemma MatchCommandSound(text: string)
    ensures MatchCommand(text).Some? ==>
              Derives(text, MatchCommand(text).value.0, MatchCommand(text).value.1)
  {
    if MatchCommand(text).Some? {
      var rest := text[1..];
      var k := WordPrefixLength(rest);
      var name, tail := rest[..k], rest[k..];
      assert text == "/" + name + tail;
      if tail == "" || tail == "\n" {
        assert Render(name, None) == "/" + name;
      } else {
        var value := tail[1..];
        assert tail == "=" + value;
        if !NoNewline(value) {
          var v := value[..|value| - 1];
          assert value == v + "\n";
          assert text == Render(name, Some(v)) + "\n";
        }
      }
    }
  }

  /** `\w+` stops exactly where the word characters stop. */
  lemma {:induction false} WordPrefixOf(name: string, suffix: string)
    requires AllWord(name)
    requires suffix == [] || !IsWordChar(suffix[0])
    ensures WordPrefixLength(name + suffix) == |name|
    decreases |name|
  {
    if name != [] {
      assert (name + suffix)[1..] == name[1..] + suffix;
      WordPrefixOf(name[1..], suffix);
    }
  }

  /** Every derivation of the grammar is recognised, with the same groups. */
  lemma MatchCommandComplete(text: string, name: string, arg: Option<string>)
    requires Derives(text, name, arg)
    ensures MatchCommand(text) == Some((name, arg))
  {
    var eq := if arg.Some? then "=" + arg.value else "";
    var nl := if text == Render(name, arg) then "" else "\n";
    var suffix := eq + nl;
    assert Render(name, arg) == "/" + name + eq;
    assert text == "/" + (name + suffix);
    var rest := text[1..];
    assert rest == name + suffix;
    WordPrefixOf(name, suffix);
    assert rest[..|name|] == name;
    assert rest[|name|..] == suffix;
    TailRecognised(name, suffix, arg, nl);
  }

  /** The `=` branch gives back the argument, with or without a final line feed. */
  lemma TailRecognised(name: string, suffix: string, arg: Option<string>, nl: string)
    requires arg.Some? ==> NoNewline(arg.value)
    requires nl == "" || nl == "\n"
    requires suffix == (if arg.Some? then "=" + arg.value else "") + nl
    ensures MatchTail(name, suffix) == Some((name, arg))
  {
    if arg.Some? {
      var value := suffix[1..];
      assert suffix[0] == '=';
      assert value == arg.value + nl;
      assert suffix != "" && suffix != "\n";
      if nl == "\n" {
        assert value[|value| - 1] == '\n';
        assert !NoNewline(value);
        assert value[..|value| - 1] == arg.value;
      } else {
        assert value == arg.value;
        assert NoNewline(value);
      }
    }
  }

  // ------------------------------------------------------- day_range argument

  /** `str.strip()` whitespace (the ASCII part of it). */
  predicate IsSpace(c: char) {
    c == ' ' || ('\t' <= c <= '\r') || ('\U{1c}' <= c <= '\U{1f}')
  }

  predicate AllSpace(s: string) {
    forall i :: 0 <= i < |s| ==> IsSpace(s[i])
  }

  function TrimLeft(s: string): (r: string)
    ensures |r| <= |s| && r == s[|s| - |r|..]
    ensures AllSpace(s[..|s| - |r|])
    ensures r == [] || !IsSpace(r[0])
  {
    if |s| > 0 && IsSpace(s[0]) then
      var r := TrimLeft(s[1..]);
      assert s[..|s| - |r|] == [s[0]] + s[1..][..|s| - 1 - |r|];
      r
    else s
  }

  function TrimRight(s: string): (r: string)
    ensures |r| <= |s| && r == s[..|r|]
    ensures AllSpace(s[|r|..])
    ensures r == [] || !IsSpace(r[|r| - 1])
  {
    if |s| > 0 && IsSpace(s[|s| - 1]) then
      var r := TrimRight(s[..|s| - 1]);
      assert s[|r|..] == s[..|s| - 1][|r|..] + [s[|s| - 1]];
      r
    else s
  }

  /** `str.strip()`. */
  function Strip(s: string): string {
    TrimRight(TrimLeft(s))
  }

  /**
    What stripping means: the result is a slice of the input, everything cut off on either
    side is whitespace, and the result neither starts nor ends with whitespace.
   */
  lemma StripIsTrimmedSlice(s: string)
    ensures exists i, j :: 0 <= i <= j <= |s| && Strip(s) == s[i..j]
                        && AllSpace(s[..i]) && AllSpace(s[j..])
    ensures Strip(s) == [] || (!IsSpace(Strip(s)[0]) && !IsSpace(Strip(s)[|Strip(s)| - 1]))
  {
    var l := TrimLeft(s);
    var r := TrimRight(l);
    var i := |s| - |l|;
    var j := i + |r|;
    assert r == s[i..j];
    assert s[j..] == l[|r|..];
    if r != [] {
      assert r[0] == l[0];
    }
  }

  /** Occurrences of `c` in `s`. */
  function Count(s: string, c: char): nat {
    if s == [] then 0 else (if s[0] == c then 1 else 0) + Count(s[1..], c)
  }

  /** `s.split(sep)`: the pieces between separators, empty pieces kept. */
  function Split(s: string, sep: char): (parts: seq<string>)
    ensures |parts| >= 1
    ensures forall k :: 0 <= k < |parts| ==> sep !in parts[k]
  {
    if s == [] then [""]
    else
      var rest := Split(s[1..], sep);
      if s[0] == sep then [""] + rest
      else [[s[0]] + rest[0]] + rest[1..]
  }

  /** `sep.join(parts)`. */
  function Join(parts: seq<string>, sep: char): string
    requires |parts| >= 1
  {
    if |parts| == 1 then parts[0] else parts[0] + [sep] + Join(parts[1..], sep)
  }

  /** Splitting loses nothing: joining the pieces back gives the input. */
  lemma {:induction false} SplitJoin(s: string, sep: char)
    ensures Join(Split(s, sep), sep) == s
  {
    if s != [] {
      var rest := Split(s[1..], sep);
      SplitJoin(s[1..], sep);
      if s[0] == sep {
        assert ([""] + rest)[1..] == rest;
      } else {
        var parts := [[s[0]] + rest[0]] + rest[1..];
        if |rest| == 1 {
          assert s == [s[0]] + s[1..];
        } else {
          assert parts[1..] == rest[1..];
          assert Join(rest, sep) == rest[0] + [sep] + Join(rest[1..], sep);
          assert s == [s[0]] + s[1..];
        }
      }
    }
  }

  /** There is one piece more than there are separators. */
  lemma {:induction false} SplitCount(s: string, sep: char)
    ensures |Split(s, sep)| == Count(s, sep) + 1
  {
    if s != [] {
      SplitCount(s[1..], sep);
    }
  }

  /** `[c.strip() for c in pieces]`. */
  function StripAll(pieces: seq<string>): (codes: seq<string>)
    ensures |codes| == |pieces|
    ensures forall i :: 0 <= i < |pieces| ==> codes[i] == Strip(pieces[i])
  {
    seq(|pieces|, i requires 0 <= i < |pieces| => Strip(pieces[i]))
  }

  /**
    The `arg` a `day_range` command publishes: with a comma, the comma-separated pieces each
    stripped (one more piece than commas, empty pieces kept); without, the argument as typed.
   */
  function CompaniesArg(arg: string): (r: Arg)
    ensures ',' in arg ==> r.List? && |r.items| == |Split(arg, ',')| == Count(arg, ',') + 1
                           && forall i :: 0 <= i < |r.items| ==> r.items[i] == Strip(Split(arg, ',')[i])
    ensures ',' !in arg ==> r == Str(arg)
  {
    if ',' in arg then
      SplitCount(arg, ',');
      List(StripAll(Split(arg, ',')))
    else Str(arg)
  }
}
