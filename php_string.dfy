/**
 * The string builtins the configuration pipeline relies on: `trim`,
 * `strtoupper`, `str_replace('-', '_', ...)`, `escapeshellarg`, and the
 * `escapeArg` helper of src/Tasks.php built from a PCRE test and
 * `escapeshellarg`. A POSIX shell's reading of one word is given beside them
 * as the meaning the escaping must preserve.
 */
module PhpString {
  import opened Wrappers

  /** The characters `trim` strips by default: space, \t, \n, \r, \0 and \x0B. */
  predicate IsTrimChar(c: char) {
    c == ' ' || c == '\t' || c == '\n' || c == '\r' || c == '\0' || c == '\U{000B}'
  }

  predicate AllTrimChars(s: string) {
    forall k :: 0 <= k < |s| ==> IsTrimChar(s[k])
  }

  /** `ltrim`: `s` without its leading trim characters. */
  function TrimStart(s: string): (r: string)
    ensures |r| <= |s| && r == s[|s| - |r|..]
    ensures r != [] ==> !IsTrimChar(r[0])
  {
    if s != [] && IsTrimChar(s[0]) then TrimStart(s[1..]) else s
  }

  /** `rtrim`: `s` without its trailing trim characters. */
  function TrimEnd(s: string): (r: string)
    ensures |r| <= |s| && r == s[..|r|]
    ensures r != [] ==> !IsTrimChar(r[|r| - 1])
  {
    if s != [] && IsTrimChar(s[|s| - 1]) then TrimEnd(s[..|s| - 1]) else s
  }

  /** What `ltrim` strips is trim characters only. */
  lemma {:induction false} TrimStartStrips(s: string)
    ensures AllTrimChars(s[..|s| - |TrimStart(s)|])
    decreases |s|
  {
    if s != [] && IsTrimChar(s[0]) {
      TrimStartStrips(s[1..]);
      var n := |s| - |TrimStart(s)|;
      assert s[..n] == [s[0]] + s[1..][..n - 1];
    }
  }

  /** What `rtrim` strips is trim characters only. */
  lemma {:induction false} TrimEndStrips(s: string)
    ensures AllTrimChars(s[|TrimEnd(s)|..])
    decreases |s|
  {
    if s != [] && IsTrimChar(s[|s| - 1]) {
      var init := s[..|s| - 1];
      TrimEndStrips(init);
      var n := |TrimEnd(s)|;
      assert s[n..] == init[n..] + [s[|s| - 1]];
    }
  }

  /** How many characters `trim` strips from the front of `s`. */
  function TrimLead(s: string): nat {
    |s| - |TrimStart(s)|
  }

  /** `trim`: both ends stripped of trim characters, so never longer than `s`. */
  function Trim(s: string): (r: string)
    ensures |r| <= |s|
  {
    TrimEnd(TrimStart(s))
  }

  /** What `trim` leaves is the infix of `s` after its leading trim characters, and it neither starts nor ends with one. */
  lemma TrimIsInfix(s: string)
    ensures TrimLead(s) + |Trim(s)| <= |s| && Trim(s) == s[TrimLead(s)..TrimLead(s) + |Trim(s)|]
    ensures Trim(s) != [] ==> !IsTrimChar(Trim(s)[0]) && !IsTrimChar(Trim(s)[|Trim(s)| - 1])
  {
    var t := TrimStart(s);
    var r := TrimEnd(t);
    assert t == s[TrimLead(s)..];
    assert r == t[..|r|];
  }

  /** What `trim` strips from either end is trim characters only. */
  lemma TrimStrips(s: string)
    ensures TrimLead(s) + |Trim(s)| <= |s|
    ensures AllTrimChars(s[..TrimLead(s)]) && AllTrimChars(s[TrimLead(s) + |Trim(s)|..])
  {
    var t := TrimStart(s);
    var r := TrimEnd(t);
    var lead := TrimLead(s);
    TrimStartStrips(s);
    TrimEndStrips(t);
    assert lead == |s| - |t|;
    assert t == s[lead..];
    assert s[lead + |r|..] == t[|r|..];
  }

  /** Trimming a trimmed string changes nothing. */
  lemma TrimIdempotent(s: string)
    ensures Trim(Trim(s)) == Trim(s)
  {
    var r := Trim(s);
    if r != [] {
      assert TrimStart(r) == r;
      assert TrimEnd(r) == r;
    }
  }

  function UpperChar(c: char): char {
    if 'a' <= c <= 'z' then (c as int - 'a' as int + 'A' as int) as char else c
  }

  /** `strtoupper`: ASCII letters upper-cased, every other character kept. */
  function Upper(s: string): (r: string)
    ensures |r| == |s|
    ensures forall k :: 0 <= k < |r| ==> !('a' <= r[k] <= 'z')
    ensures forall k :: 0 <= k < |s| && !('a' <= s[k] <= 'z') ==> r[k] == s[k]
  {
    seq(|s|, k requires 0 <= k < |s| => UpperChar(s[k]))
  }

  /** Upper-casing twice is upper-casing once. */
  lemma UpperIdempotent(s: string)
    ensures Upper(Upper(s)) == Upper(s)
  {
  }

  /** `str_replace('-', '_', s)`: every dash becomes an underscore, nothing else moves. */
  function ReplaceDashes(s: string): (r: string)
    ensures |r| == |s|
    ensures forall k :: 0 <= k < |s| ==> r[k] == if s[k] == '-' then '_' else s[k]
    ensures '-' !in r
  {
    seq(|s|, k requires 0 <= k < |s| => if s[k] == '-' then '_' else s[k])
  }

  /** The class `[\w-]` of a PCRE pattern without the `u` flag: ASCII letters, digits, `_` and `-`. */
  predicate IsArgChar(c: char) {
    ('a' <= c <= 'z') || ('A' <= c <= 'Z') || ('0' <= c <= '9') || c == '_' || c == '-'
  }

  predicate AllArgChars(s: string) {
    forall k :: 0 <= k < |s| ==> IsArgChar(s[k])
  }

  /**
   * The strings the PCRE `{^[\w-]+$}` matches without the `D` modifier,
   * where `$` also matches just before a final newline.
   */
  predicate MatchesArgPattern(s: string) {
    (|s| >= 1 && AllArgChars(s)) || EndsInNewlineAfterWord(s)
  }

  /** The second way to match: one or more `[\w-]` characters and a final newline. */
  predicate EndsInNewlineAfterWord(s: string) {
    |s| >= 2 && s[|s| - 1] == '\n' && AllArgChars(s[..|s| - 1])
  }

  /** The body of `escapeshellarg`'s quoting: each `'` becomes `'\''`. */
  function QuoteBody(s: string): (r: string)
    ensures |r| >= |s|
  {
    if s == [] then []
    else (if s[0] == '\'' then "'\\''" else [s[0]]) + QuoteBody(s[1..])
  }

  /** `escapeshellarg` on a POSIX system: the string in single quotes. */
  function EscapeShellArg(s: string): (r: string)
    ensures |r| >= |s| + 2 && r[0] == '\''
  {
    "'" + QuoteBody(s) + "'"
  }

  /**
   * `escapeArg` (src/Tasks.php:674-676): a string the pattern accepts is
   * returned as it is, any other is shell-quoted; so the result equals the
   * input exactly when the pattern accepts it.
   */
  function EscapeArg(s: string): (r: string)
    ensures r == s <==> MatchesArgPattern(s)
  {
    if MatchesArgPattern(s) then s else EscapeShellArg(s)
  }

  function PrependAll(s: string, o: Option<string>): Option<string> {
    match o
    case Some(t) => Some(s + t)
    case None => None
  }

  /**
   * How a POSIX shell reads `w` as one word: `'...'` quotes everything up
   * to the next `'`, a backslash outside quotes takes the next character
   * literally (and a backslash-newline vanishes), `[\w-]` characters stand
   * for themselves. None when `w` is not a single literal word: an
   * unterminated quote, a trailing backslash, or any other character
   * (blank, newline, metacharacter) outside quotes.
   */
  function Unquote(w: string, inQuote: bool): Option<string>
    decreases |w|
  {
    if w == [] then (if inQuote then None else Some([]))
    else if inQuote then
      if w[0] == '\'' then Unquote(w[1..], false) else PrependAll([w[0]], Unquote(w[1..], true))
    else if w[0] == '\'' then Unquote(w[1..], true)
    else if w[0] == '\\' then
      if |w| < 2 then None
      else if w[1] == '\n' then Unquote(w[2..], false)
      else PrependAll([w[1]], Unquote(w[2..], false))
    else if IsArgChar(w[0]) then PrependAll([w[0]], Unquote(w[1..], false))
    else None
  }

  function ShellWord(w: string): Option<string> {
    Unquote(w, false)
  }

  /** Inside quotes, `'\''` closes the quote, yields a literal `'`, and reopens it. */
  lemma UnquoteEscapedQuote(rest: string)
    ensures Unquote("'\\''" + rest, true) == PrependAll("'", Unquote(rest, true))
  {
    assert ("'\\''" + rest)[1..] == "\\''" + rest;
    assert ("\\''" + rest)[2..] == "'" + rest;
    assert ("'" + rest)[1..] == rest;
    assert Unquote("'" + rest, false) == Unquote(rest, true);
    assert Unquote("\\''" + rest, false) == PrependAll("'", Unquote(rest, true));
  }

  /** Inside quotes, any character but `'` stands for itself. */
  lemma UnquoteQuotedChar(c: char, rest: string)
    requires c != '\''
    ensures Unquote([c] + rest, true) == PrependAll([c], Unquote(rest, true))
  {
    assert ([c] + rest)[1..] == rest;
  }

  /** Inside quotes, the shell reads the quoted body of `s` back as `s`. */
  lemma {:induction false} UnquoteQuoteBody(s: string, tail: string)
    ensures Unquote(QuoteBody(s) + tail, true) == PrependAll(s, Unquote(tail, true))
    decreases |s|
  {
    if s == [] {
      assert QuoteBody(s) + tail == tail;
      match Unquote(tail, true)
      case Some(t) => assert s + t == t;
      case None =>
    } else {
      UnquoteQuoteBody(s[1..], tail);
      var rest := QuoteBody(s[1..]) + tail;
      if s[0] == '\'' {
        assert QuoteBody(s) + tail == "'\\''" + rest;
        UnquoteEscapedQuote(rest);
      } else {
        assert QuoteBody(s) + tail == [s[0]] + rest;
        UnquoteQuotedChar(s[0], rest);
      }
      match Unquote(tail, true)
      case Some(t) => assert [s[0]] + (s[1..] + t) == s + t;
      case None =>
    }
  }

  /** The shell reads the `escapeshellarg` form back as the original string. */
  lemma EscapeShellArgRoundTrip(s: string)
    ensures ShellWord(EscapeShellArg(s)) == Some(s)
  {
    var w := EscapeShellArg(s);
    assert w[1..] == QuoteBody(s) + "'";
    UnquoteQuoteBody(s, "'");
    assert Unquote("'", true) == Some([]);
    assert s + [] == s;
  }

  lemma {:induction false} UnquotePlain(w: string, tail: string)
    requires AllArgChars(w)
    ensures Unquote(w + tail, false) == PrependAll(w, Unquote(tail, false))
    decreases |w|
  {
    if w == [] {
      assert w + tail == tail;
      match Unquote(tail, false)
      case Some(t) => assert w + t == t;
      case None =>
    } else {
      assert (w + tail)[0] == w[0] && (w + tail)[1..] == w[1..] + tail;
      UnquotePlain(w[1..], tail);
      match Unquote(tail, false)
      case Some(t) => assert [w[0]] + (w[1..] + t) == w + t;
      case None =>
    }
  }

  /**
   * `escapeArg` hands the shell a word that reads back as its input, for
   * every input except one made of `[\w-]` characters and a final newline,
   * which the PCRE `$` lets through unquoted.
   */
  lemma EscapeArgRoundTrip(s: string)
    ensures ShellWord(EscapeArg(s)) == Some(s) <==> !EndsInNewlineAfterWord(s)
  {
    if EndsInNewlineAfterWord(s) {
      var w := s[..|s| - 1];
      assert s == w + "\n";
      UnquotePlain(w, "\n");
      assert Unquote("\n", false) == None;
    } else if MatchesArgPattern(s) {
      UnquotePlain(s, []);
      assert s + [] == s;
    } else {
      EscapeShellArgRoundTrip(s);
    }
  }
}
