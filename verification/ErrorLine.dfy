/** Stable class tokens for unrecognised failures: `normalize_error_line`. */
module ErrorLine {
  import opened Wrappers
  import opened Text

  const MAX_LEN: nat := 120

  predicate HasPathSeparator(word: string) {
    '/' in word || '\\' in word
  }

  /** One word with quoted text and digit runs elided; also the quote still open after it. */
  function ScrubWord(word: string, quote: Option<char>, prevDigit: bool): (string, Option<char>)
    decreases |word|
  {
    if word == "" then ("", quote)
    else
      var c, rest := word[0], word[1..];
      if quote.Some? then
        if c == quote.value then
          var (w, q) := ScrubWord(rest, None, prevDigit);
          ("<str>" + w, q)
        else ScrubWord(rest, quote, prevDigit)
      else if c == '"' || c == '`' then ScrubWord(rest, Some(c), prevDigit)
      else if IsDigit(c) then
        var (w, q) := ScrubWord(rest, None, true);
        ((if prevDigit then "" else "#") + w, q)
      else
        var (w, q) := ScrubWord(rest, None, false);
        ([c] + w, q)
  }

  /** All words, each followed by a space; quote state runs on from word to word. */
  function ScrubWords(words: seq<string>, quote: Option<char>): string {
    if words == [] then ""
    else if HasPathSeparator(words[0]) then "<path> " + ScrubWords(words[1..], quote)
    else
      var (w, q) := ScrubWord(words[0], quote, false);
      (if w == "" then "" else w + " ") + ScrubWords(words[1..], q)
  }

  function Truncate(s: string): string {
    if |s| <= MAX_LEN then s else s[..MAX_LEN]
  }

  function Normalized(line: string): string {
    Truncate(Trim(ScrubWords(Words(Lower(line)), None)))
  }

  /** One character more: what it adds to the word, and the state after it. */
  lemma ScrubNext(c: char, rest: string, quote: Option<char>, prevDigit: bool)
    ensures ScrubWord([c] + rest, quote, prevDigit)
            == if quote.Some? then
                 if c == quote.value then
                   ("<str>" + ScrubWord(rest, None, prevDigit).0, ScrubWord(rest, None, prevDigit).1)
                 else ScrubWord(rest, quote, prevDigit)
               else if c == '"' || c == '`' then ScrubWord(rest, Some(c), prevDigit)
               else if IsDigit(c) then
                 ((if prevDigit then "" else "#") + ScrubWord(rest, None, true).0, ScrubWord(rest, None, true).1)
               else ([c] + ScrubWord(rest, None, false).0, ScrubWord(rest, None, false).1)
  {
    assert ([c] + rest)[1..] == rest;
  }

  lemma JoinedRight(a: string, b: string, c: string)
    ensures a + (b + c) == (a + b) + c
  {
  }

  /** The inner loop: one word, starting inside the quote left open by the words before it. */
  method ScrubOne(word: string, quote: Option<char>) returns (w: string, inQuote: Option<char>)
    ensures w == ScrubWord(word, quote, false).0 && inQuote == ScrubWord(word, quote, false).1
  {
    w, inQuote := "", quote;
    var prevDigit := false;
    ghost var goal := ScrubWord(word, quote, false);
    assert word[0..] == word && word[|word|..] == "";
    assert forall q, d :: ScrubWord("", q, d) == ("", q);
    hide ScrubWord, IsDigit;
    for j := 0 to |word|
      invariant w + ScrubWord(word[j..], inQuote, prevDigit).0 == goal.0
      invariant ScrubWord(word[j..], inQuote, prevDigit).1 == goal.1
    {
      var c := word[j];
      assert word[j..] == [c] + word[j + 1..];
      ScrubNext(c, word[j + 1..], inQuote, prevDigit);
      ghost var rest := word[j + 1..];
      if inQuote.Some? {
        if c == inQuote.value {
          JoinedRight(w, "<str>", ScrubWord(rest, None, prevDigit).0);
          inQuote := None;
          w := w + "<str>";
        }
      } else if c == '"' || c == '`' {
        inQuote := Some(c);
      } else if IsDigit(c) {
        JoinedRight(w, if prevDigit then "" else "#", ScrubWord(rest, None, true).0);
        if !prevDigit {
          w := w + "#";
        }
        prevDigit := true;
      } else {
        JoinedRight(w, [c], ScrubWord(rest, None, false).0);
        prevDigit := false;
        w := w + [c];
      }
    }
    assert w + "" == w;
  }

  method NormalizeErrorLine(line: string) returns (r: string)
    ensures r == Normalized(line)
  {
    hide ScrubWord, HasPathSeparator, Words, Lower, Trim, Truncate;
    var out := "";
    var inQuote: Option<char> := None;
    var words := Words(Lower(line));
    for i := 0 to |words|
      invariant out + ScrubWords(words[i..], inQuote) == ScrubWords(words, None)
    {
      assert words[i..][1..] == words[i + 1..];
      if HasPathSeparator(words[i]) {
        JoinedRight(out, "<path> ", ScrubWords(words[i + 1..], inQuote));
        out := out + "<path> ";
      } else {
        var w;
        w, inQuote := ScrubOne(words[i], inQuote);
        if w != "" {
          JoinedRight(out, w + " ", ScrubWords(words[i + 1..], inQuote));
          out := out + (w + " ");
        }
      }
    }
    assert out + "" == out;
    r := Truncate(Trim(out));
  }

  // ── what a normalised line may contain ─────────────────────────────────

  predicate Clean(c: char) {
    !IsDigit(c) && !IsUpper(c) && c != '"' && c != '`' && c != '/' && c != '\\' && (IsSpace(c) ==> c == ' ')
  }

  ghost predicate AllClean(s: string) {
    forall i :: 0 <= i < |s| ==> Clean(s[i])
  }

  /** Clean words separated by single spaces, possibly with one space at the end. */
  ghost predicate Tidy(s: string) {
    && AllClean(s)
    && (s != "" ==> s[0] != ' ')
    && (forall i :: 0 <= i < |s| - 1 ==> !(s[i] == ' ' && s[i + 1] == ' '))
  }

  ghost predicate CleanWord(w: string) {
    AllClean(w) && ' ' !in w
  }

  ghost predicate RawWord(w: string) {
    IsWord(w) && forall i :: 0 <= i < |w| ==> !IsUpper(w[i])
  }

  lemma {:induction false} ScrubWordClean(word: string, quote: Option<char>, prevDigit: bool)
    requires forall i :: 0 <= i < |word| ==> !IsSpace(word[i]) && !IsUpper(word[i])
    requires !HasPathSeparator(word)
    ensures CleanWord(ScrubWord(word, quote, prevDigit).0)
    decreases |word|
  {
    if word != "" {
      var c, rest := word[0], word[1..];
      if quote.Some? {
        ScrubWordClean(rest, if c == quote.value then None else quote, prevDigit);
      } else if c == '"' || c == '`' {
        ScrubWordClean(rest, Some(c), prevDigit);
      } else {
        ScrubWordClean(rest, None, IsDigit(c));
      }
    }
  }

  ghost predicate EndsWithSpace(s: string) {
    s != "" && s[|s| - 1] == ' '
  }

  /** Tidy, and ended by the space that follows the last word. */
  ghost predicate TidyLine(s: string) {
    Tidy(s) && (s != "" ==> EndsWithSpace(s))
  }

  lemma TidyCons(w: string, rest: string)
    requires w != "" && CleanWord(w)
    requires TidyLine(rest)
    ensures TidyLine(w + " " + rest)
  {
    var s := w + " " + rest;
    forall i | 0 <= i < |s| - 1 ensures !(s[i] == ' ' && s[i + 1] == ' ') {
      if i < |w| { assert s[i] == w[i] != ' '; }
    }
  }

  lemma {:induction false} ScrubWordsTidy(words: seq<string>, quote: Option<char>)
    requires forall i :: 0 <= i < |words| ==> RawWord(words[i])
    ensures TidyLine(ScrubWords(words, quote))
  {
    if words != [] {
      if HasPathSeparator(words[0]) {
        var rest := ScrubWords(words[1..], quote);
        ScrubWordsTidy(words[1..], quote);
        TidyCons("<path>", rest);
        assert "<path>" + " " + rest == "<path> " + rest;
      } else {
        var w := ScrubWord(words[0], quote, false);
        ScrubWordClean(words[0], quote, false);
        ScrubWordsTidy(words[1..], w.1);
        if w.0 != "" { TidyCons(w.0, ScrubWords(words[1..], w.1)); }
      }
    }
  }

  lemma {:induction false} LowerWordsRaw(s: string)
    requires forall i :: 0 <= i < |s| ==> !IsUpper(s[i])
    ensures forall i :: 0 <= i < |Words(s)| ==> RawWord(Words(s)[i])
    decreases |s|
  {
    if s != "" {
      if IsSpace(s[0]) { LowerWordsRaw(s[1..]); } else { LowerWordsRaw(s[WordLen(s)..]); }
    }
  }

  function DropEndSpace(s: string): string {
    if s != "" && s[|s| - 1] == ' ' then s[..|s| - 1] else s
  }

  lemma TrimTidy(s: string)
    requires Tidy(s)
    ensures Trim(s) == DropEndSpace(s) && Tidy(DropEndSpace(s)) && !EndsWithSpace(DropEndSpace(s))
  {
    var p := IsSpace;
    assert TrimStartBy(s, p) == s;
    if EndsWithSpace(s) {
      var t := s[..|s| - 1];
      assert t != "" ==> s[|s| - 2] == t[|t| - 1];
      assert TrimEndBy(t, p) == t;
    }
  }

  /** At most 120 characters, none a digit, an upper-case letter, a quote, a backtick, a slash or a backslash. */
  lemma NormalizedIsClean(line: string)
    ensures |Normalized(line)| <= MAX_LEN
    ensures Tidy(Normalized(line))
  {
    var lower := Lower(line);
    LowerWordsRaw(lower);
    ScrubWordsTidy(Words(lower), None);
    TrimTidy(ScrubWords(Words(lower), None));
  }

  // ── idempotence ────────────────────────────────────────────────────────

  lemma {:induction false} ScrubCleanWord(w: string)
    requires CleanWord(w)
    ensures ScrubWord(w, None, false) == (w, None)
  {
    if w != "" {
      ScrubCleanWord(w[1..]);
      assert w == [w[0]] + w[1..];
    }
  }

  lemma ScrubCons(w: string, rest: seq<string>)
    requires w != "" && CleanWord(w)
    ensures ScrubWords([w] + rest, None) == w + " " + ScrubWords(rest, None)
  {
    ScrubCleanWord(w);
    assert ([w] + rest)[1..] == rest;
  }

  lemma WordsHead(t: string)
    requires t != "" && !IsSpace(t[0])
    ensures WordLen(t) >= 1
    ensures Words(t) == [t[..WordLen(t)]] + Words(t[WordLen(t)..])
  {
  }

  lemma WordsSkip(t: string, n: nat)
    requires n < |t| && IsSpace(t[n])
    ensures Words(t[n..]) == Words(t[n + 1..])
  {
    var u := t[n..];
    assert u[1..] == t[n + 1..];
    assert u[0] == t[n];
  }

  lemma {:induction false} ScrubTidy(t: string)
    requires Tidy(t)
    ensures ScrubWords(Words(t), None) == if t == "" || EndsWithSpace(t) then t else t + " "
    decreases |t|
  {
    if t != "" {
      var n := WordLen(t);
      WordsHead(t);
      ScrubCons(t[..n], Words(t[n..]));
      if n < |t| {
        WordsSkip(t, n);
        TidyTail(t, n);
        ScrubTidy(t[n + 1..]);
        Rejoin(t, n);
      } else {
        assert t[..n] == t && Words(t[n..]) == [];
      }
    }
  }

  lemma Rejoin(t: string, n: nat)
    requires n < |t| && t[n] == ' '
    ensures var u := t[n + 1..];
            t[..n] + " " + (if u == "" || EndsWithSpace(u) then u else u + " ")
            == if EndsWithSpace(t) then t else t + " "
  {
    var u := t[n + 1..];
    assert t == t[..n] + " " + u;
    if u != "" { assert u[|u| - 1] == t[|t| - 1]; }
  }

  lemma TidyTail(t: string, n: nat)
    requires Tidy(t) && n < |t| && t[n] == ' '
    ensures Tidy(t[n + 1..])
  {
    var u := t[n + 1..];
    assert u != "" ==> t[n + 1] == u[0];
    forall i | 0 <= i < |u| - 1 ensures !(u[i] == ' ' && u[i + 1] == ' ') {
      assert u[i] == t[n + 1 + i] && u[i + 1] == t[n + 2 + i];
    }
  }

  lemma LowerTidy(t: string)
    requires AllClean(t)
    ensures Lower(t) == t
  {
    assert forall i :: 0 <= i < |t| ==> Lower(t)[i] == t[i];
  }

  /** Normalising again only removes the single space that truncation may leave at the end. */
  lemma NormalizedTwice(line: string)
    ensures Normalized(Normalized(line)) == DropEndSpace(Normalized(line))
    ensures Normalized(Normalized(line)) == Normalized(line) <==> !EndsWithSpace(Normalized(line))
    ensures Normalized(Normalized(Normalized(line))) == Normalized(Normalized(line))
  {
    NormalizedIsClean(line);
    var t := Normalized(line);
    TidyFixed(t);
    TrimTidy(t);
    TidyFixed(DropEndSpace(t));
  }

  lemma TidyFixed(t: string)
    requires Tidy(t) && |t| <= MAX_LEN
    ensures Normalized(t) == DropEndSpace(t)
  {
    LowerTidy(t);
    ScrubTidy(t);
    if t != "" && !EndsWithSpace(t) {
      var s := t + " ";
      assert Tidy(s) by {
        forall i | 0 <= i < |s| - 1 ensures !(s[i] == ' ' && s[i + 1] == ' ') {
          if i == |t| - 1 { assert s[i] != ' '; }
        }
      }
      TrimTidy(s);
      assert DropEndSpace(s) == t;
    } else {
      TrimTidy(t);
    }
  }

  // ── insensitivity to numbers ───────────────────────────────────────────

  /** Equal except that digits may stand where digits stand. */
  ghost predicate SameButDigits(a: string, b: string) {
    |a| == |b| && forall i :: 0 <= i < |a| ==> a[i] == b[i] || (IsDigit(a[i]) && IsDigit(b[i]))
  }

  lemma {:induction false} ScrubWordDigits(a: string, b: string, quote: Option<char>, prevDigit: bool)
    requires SameButDigits(a, b) && (quote.Some? ==> !IsDigit(quote.value))
    ensures ScrubWord(a, quote, prevDigit) == ScrubWord(b, quote, prevDigit)
    ensures var q := ScrubWord(a, quote, prevDigit).1; q.Some? ==> !IsDigit(q.value)
    decreases |a|
  {
    if a != "" {
      var c := a[0];
      if quote.Some? {
        ScrubWordDigits(a[1..], b[1..], if c == quote.value then None else quote, prevDigit);
      } else if c == '"' || c == '`' {
        ScrubWordDigits(a[1..], b[1..], Some(c), prevDigit);
      } else {
        ScrubWordDigits(a[1..], b[1..], None, IsDigit(c));
      }
    }
  }

  lemma {:induction false} WordLenDigits(a: string, b: string)
    requires SameButDigits(a, b)
    ensures WordLen(a) == WordLen(b)
    decreases |a|
  {
    if a != "" && !IsSpace(a[0]) { WordLenDigits(a[1..], b[1..]); }
  }

  lemma {:induction false} ScrubWordsDigits(a: string, b: string, quote: Option<char>)
    requires SameButDigits(a, b) && (quote.Some? ==> !IsDigit(quote.value))
    ensures ScrubWords(Words(a), quote) == ScrubWords(Words(b), quote)
    decreases |a|
  {
    if a != "" {
      if IsSpace(a[0]) {
        ScrubWordsDigits(a[1..], b[1..], quote);
      } else {
        WordLenDigits(a, b);
        var n := WordLen(a);
        var v, w := a[..n], b[..n];
        assert SameButDigits(v, w);
        assert HasPathSeparator(v) == HasPathSeparator(w) by {
          assert forall i :: 0 <= i < n ==> (v[i] == '/' <==> w[i] == '/') && (v[i] == '\\' <==> w[i] == '\\');
        }
        if HasPathSeparator(v) {
          ScrubWordsDigits(a[n..], b[n..], quote);
        } else {
          ScrubWordDigits(v, w, quote, false);
          ScrubWordsDigits(a[n..], b[n..], ScrubWord(v, quote, false).1);
        }
      }
    }
  }

  /** A line keeps its class when line numbers, durations or counters take other digits. */
  lemma NumbersDoNotMatter(a: string, b: string)
    requires SameButDigits(a, b)
    ensures Normalized(a) == Normalized(b)
  {
    assert SameButDigits(Lower(a), Lower(b));
    ScrubWordsDigits(Lower(a), Lower(b), None);
  }
}
