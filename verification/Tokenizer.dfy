/** The REPL's command lines (examples/repl/command.cpp): splitting a line into tokens, and
    tokens into positional and named arguments. */
module Tokenizer {
  import opened Options

  const MAX_INPUT_TOKENS: nat := 64

  predicate IsBlank(c: char) {
    c == ' ' || c == '\t'
  }

  predicate AllBlank(s: string) {
    forall c <- s :: IsBlank(c)
  }

  // ---- what a token is: one character at a time ----

  /** In a word without quotes so far, inside its first quotes, or behind them, where further
      quotes are ordinary characters. */
  datatype Place = Unquoted | Quoted | AfterQuote

  predicate Ends(p: Place, c: char) {
    IsBlank(c) && !p.Quoted?
  }

  function Next(p: Place, c: char): Place {
    if c != '"' then p else if p.Unquoted? then Quoted else AfterQuote
  }

  /** How many characters of `s` belong to a token that has got to `p`. */
  function Extent(p: Place, s: string): (n: nat)
    ensures n <= |s| && (n < |s| ==> IsBlank(s[n]))
    decreases |s|
  {
    if s == "" || Ends(p, s[0]) then 0 else 1 + Extent(Next(p, s[0]), s[1..])
  }

  function Tokens(s: string): seq<string>
    decreases |s|
  {
    if s == "" then []
    else if IsBlank(s[0]) then Tokens(s[1..])
    else
      var n := Extent(Unquoted, s);
      [s[..n]] + Tokens(s[n..])
  }

  // ---- what Parse does: searches for quotes and blanks ----

  /** Position of the first `c`, or the length if there is none. */
  function IndexOf(s: string, c: char): (i: nat)
    ensures i <= |s|
  {
    if s == "" || s[0] == c then 0 else 1 + IndexOf(s[1..], c)
  }

  function IndexOfBlank(s: string): (i: nat)
    ensures i <= |s|
  {
    if s == "" || IsBlank(s[0]) then 0 else 1 + IndexOfBlank(s[1..])
  }

  function IndexOfWord(s: string): (i: nat)
    ensures i <= |s| && (i < |s| ==> !IsBlank(s[i]))
  {
    if s == "" || !IsBlank(s[0]) then 0 else 1 + IndexOfWord(s[1..])
  }

  lemma {:induction false} ExtentAfterQuote(s: string)
    ensures Extent(AfterQuote, s) == IndexOfBlank(s)
  {
    if s != "" {
      ExtentAfterQuote(s[1..]);
    }
  }

  lemma {:induction false} ExtentQuoted(s: string)
    ensures
      var closing := IndexOf(s, '"');
      Extent(Quoted, s) == if closing < |s| then closing + 1 + Extent(AfterQuote, s[closing + 1..]) else |s|
  {
    if s != "" && s[0] != '"' {
      var t, i := s[1..], IndexOf(s[1..], '"');
      ExtentQuoted(t);
      assert Extent(Quoted, s) == 1 + Extent(Quoted, t);
      if i < |t| {
        DropTwice(s, 1, i + 1);
      }
    }
  }

  /** Where the first quote or blank comes later, one character belongs to the token. */
  lemma OneUnquoted(s: string)
    requires s != "" && s[0] != '"' && !IsBlank(s[0])
    ensures Extent(Unquoted, s) == 1 + Extent(Unquoted, s[1..])
    ensures IndexOf(s, '"') == 1 + IndexOf(s[1..], '"') && IndexOfBlank(s) == 1 + IndexOfBlank(s[1..])
  {
  }

  lemma {:induction false} ExtentUnquoted(s: string)
    ensures
      var quote, blank := IndexOf(s, '"'), IndexOfBlank(s);
      Extent(Unquoted, s) == if quote < blank then quote + 1 + Extent(Quoted, s[quote + 1..]) else blank
  {
    if s != "" && s[0] != '"' && !IsBlank(s[0]) {
      var i := IndexOf(s[1..], '"');
      OneUnquoted(s);
      ExtentUnquoted(s[1..]);
      if i < |s| - 1 {
        DropTwice(s, 1, i + 1);
      }
    }
  }

  lemma DropTwice(s: string, i: nat, j: nat)
    requires i + j <= |s|
    ensures s[i..][j..] == s[i + j..]
  {
  }

  /** `find` and `find_first_of` search from a position; the length stands for npos. */
  function Find(line: string, c: char, from: nat): (i: nat)
    requires from <= |line|
    ensures from <= i <= |line|
  {
    from + IndexOf(line[from..], c)
  }

  function FindBlank(line: string, from: nat): (i: nat)
    requires from <= |line|
    ensures from <= i <= |line|
  {
    from + IndexOfBlank(line[from..])
  }

  function FindWord(line: string, from: nat): (i: nat)
    requires from <= |line|
    ensures from <= i <= |line| && (i < |line| ==> !IsBlank(line[i]))
  {
    from + IndexOfWord(line[from..])
  }

  /** Where the token that starts at `start` ends. */
  method FindTokenEnd(line: string, start: nat) returns (end: nat)
    requires start < |line| && !IsBlank(line[start])
    ensures end == start + Extent(Unquoted, line[start..])
  {
    var quote, blank := Find(line, '"', start), FindBlank(line, start);
    ExtentFound(line, start, quote, blank);
    if quote < |line| && (blank == |line| || quote < blank) {
      end := FindClosedEnd(line, quote + 1);
    } else {
      end := blank;
    }
  }

  lemma ExtentFound(line: string, start: nat, quote: nat, blank: nat)
    requires start <= |line| && quote == Find(line, '"', start) && blank == FindBlank(line, start)
    ensures start + Extent(Unquoted, line[start..]) ==
      if quote < blank then quote + 1 + Extent(Quoted, line[quote + 1..]) else blank
  {
    var s := line[start..];
    ExtentUnquoted(s);
    if quote < blank {
      DropTwice(line, start, quote + 1 - start);
      assert s[IndexOf(s, '"') + 1..] == line[quote + 1..];
    }
  }

  lemma QuotedFound(line: string, from: nat, closing: nat)
    requires from <= |line| && closing == Find(line, '"', from)
    ensures from + Extent(Quoted, line[from..]) ==
      if closing < |line| then FindBlank(line, closing + 1) else |line|
  {
    ExtentQuoted(line[from..]);
    if closing < |line| {
      DropTwice(line, from, closing + 1 - from);
      ExtentAfterQuote(line[closing + 1..]);
    }
  }

  /** The same for a token whose first quote is just before `from`. */
  method FindClosedEnd(line: string, from: nat) returns (end: nat)
    requires from <= |line|
    ensures end == from + Extent(Quoted, line[from..])
  {
    var closing := Find(line, '"', from);
    QuotedFound(line, from, closing);
    if closing < |line| {
      end := FindBlank(line, closing + 1);
    } else {
      end := |line|;
    }
  }

  function Min(a: nat, b: nat): nat {
    if a < b then a else b
  }

  /** The array holds as many of the tokens seen as fit into it. */
  ghost predicate Holds(tokens: array<string>, n: nat, seen: seq<string>)
    reads tokens
  {
    tokens.Length == MAX_INPUT_TOKENS && n == Min(|seen|, MAX_INPUT_TOKENS) && tokens[..n] == seen[..n]
  }

  /** A token beyond the limit is dropped. */
  method AddToken(tokens: array<string>, n: nat, word: string, ghost seen: seq<string>) returns (n': nat)
    requires Holds(tokens, n, seen)
    modifies tokens
    ensures Holds(tokens, n', seen + [word])
  {
    n' := n;
    if n < MAX_INPUT_TOKENS {
      tokens[n] := word;
      n' := n + 1;
    }
  }

  /** Parse: the tokens of the line, as far as the fixed-size array has room for them. */
  method Parse(line: string) returns (tokens: array<string>, n: nat)
    ensures fresh(tokens) && tokens.Length == 64
    ensures n == if |Tokens(line)| < 64 then |Tokens(line)| else 64
    ensures tokens[..n] == Tokens(line)[..n]
  {
    tokens, n := new string[MAX_INPUT_TOKENS](_ => ""), 0;
    ghost var all, seen: seq<string> := Tokens(line), [];
    var start := FindWord(line, 0);
    BlanksSkipped(line, 0);
    assert line[0..] == line;
    while start < |line|
      invariant start <= |line| && (start < |line| ==> !IsBlank(line[start]))
      invariant all == seen + Tokens(line[start..])
      invariant Holds(tokens, n, seen)
      decreases |line| - start
    {
      var end := FindTokenEnd(line, start);
      var word := line[start..end];
      n := AddToken(tokens, n, word, seen);
      MoveOn(line, start, end, seen);
      seen := seen + [word];
      start := FindWord(line, end);
    }
    assert Tokens(line[start..]) == [];
  }

  lemma MoveOn(line: string, start: nat, end: nat, seen: seq<string>)
    requires start < |line| && !IsBlank(line[start]) && end == start + Extent(Unquoted, line[start..])
    ensures seen + Tokens(line[start..]) == seen + [line[start..end]] + Tokens(line[FindWord(line, end)..])
  {
    FirstToken(line, start, end);
    BlanksSkipped(line, end);
    Regroup(seen, line[start..end], Tokens(line[end..]));
  }

  lemma Regroup(s: seq<string>, w: string, t: seq<string>)
    ensures s + ([w] + t) == s + [w] + t
  {
  }

  lemma FirstToken(line: string, start: nat, end: nat)
    requires start < |line| && !IsBlank(line[start]) && end == start + Extent(Unquoted, line[start..])
    ensures Tokens(line[start..]) == [line[start..end]] + Tokens(line[end..]) && start < end
  {
    assert line[start..][..end - start] == line[start..end];
    DropTwice(line, start, end - start);
  }

  lemma {:induction false} BlanksSkipped(line: string, from: nat)
    requires from <= |line|
    ensures Tokens(line[from..]) == Tokens(line[FindWord(line, from)..])
    decreases |line| - from
  {
    if from < |line| && IsBlank(line[from]) {
      DropTwice(line, from, 1);
      BlanksSkipped(line, from + 1);
    }
  }

  // ---- coverage ----

  /** Tokens separated by gaps, with a gap before the first and after the last. */
  function Interleave(gaps: seq<string>, tokens: seq<string>): string
    requires |gaps| == |tokens| + 1
  {
    if tokens == [] then gaps[0] else gaps[0] + tokens[0] + Interleave(gaps[1..], tokens[1..])
  }

  /** The tokens are all of the line except blanks, in order: nothing else lies between them,
      and something does lie between them. */
  lemma {:induction false} TokensCoverLine(s: string) returns (gaps: seq<string>)
    ensures |gaps| == |Tokens(s)| + 1 && s == Interleave(gaps, Tokens(s))
    ensures forall i | 0 <= i < |gaps| :: AllBlank(gaps[i])
    ensures forall i | 0 < i < |gaps| - 1 :: gaps[i] != ""
    ensures s != "" && IsBlank(s[0]) ==> gaps[0] != ""
    ensures forall t <- Tokens(s) :: t != "" && !IsBlank(t[0])
    decreases |s|
  {
    if s == "" {
      gaps := [""];
    } else if IsBlank(s[0]) {
      var rest := TokensCoverLine(s[1..]);
      gaps := rest[0 := [s[0]] + rest[0]];
      FirstGapGrows(rest, Tokens(s), [s[0]]);
      assert s == [s[0]] + s[1..];
    } else {
      var n := Extent(Unquoted, s);
      var rest := TokensCoverLine(s[n..]);
      gaps := [""] + rest;
      assert gaps[1..] == rest && Tokens(s)[1..] == Tokens(s[n..]);
      assert s == "" + s[..n] + s[n..];
    }
  }

  lemma FirstGapGrows(gaps: seq<string>, tokens: seq<string>, more: string)
    requires |gaps| == |tokens| + 1
    ensures Interleave(gaps[0 := more + gaps[0]], tokens) == more + Interleave(gaps, tokens)
  {
    assert gaps[0 := more + gaps[0]][1..] == gaps[1..];
    if tokens != [] {
      var tail := Interleave(gaps[1..], tokens[1..]);
      assert (more + gaps[0]) + tokens[0] + tail == more + (gaps[0] + tokens[0] + tail);
    }
  }

  // ---- stability ----

  function PlaceAfter(p: Place, w: string): Place
    decreases |w|
  {
    if w == "" then p else PlaceAfter(Next(p, w[0]), w[1..])
  }

  /** A word that is one token by itself and, with `more`, also in front of other text. */
  predicate IsToken(w: string, more: bool) {
    && w != "" && !IsBlank(w[0])
    && Extent(Unquoted, w) == |w|
    && (more ==> !PlaceAfter(Unquoted, w).Quoted?)
  }

  predicate AreTokens(ws: seq<string>) {
    ws == [] || (IsToken(ws[0], |ws| > 1) && AreTokens(ws[1..]))
  }

  function Join(ws: seq<string>): string {
    if ws == [] then ""
    else if |ws| == 1 then ws[0]
    else ws[0] + " " + Join(ws[1..])
  }

  /** A word is cut out of a text exactly if it is a token by itself and, unless it is all of
      the text, leaves no quote open. */
  lemma {:induction false} CutExactly(p: Place, w: string, x: string)
    requires x == "" || IsBlank(x[0])
    ensures Extent(p, w + x) == |w| <==> Extent(p, w) == |w| && (x == "" || !PlaceAfter(p, w).Quoted?)
    decreases |w|
  {
    if w == "" {
      assert w + x == x;
    } else {
      CutExactly(Next(p, w[0]), w[1..], x);
      assert (w + x)[1..] == w[1..] + x;
    }
  }

  /** What the tokenizer cuts out are tokens by themselves. */
  lemma {:induction false} CutsAreTokens(s: string)
    ensures AreTokens(Tokens(s))
    decreases |s|
  {
    if s != "" {
      if IsBlank(s[0]) {
        CutsAreTokens(s[1..]);
      } else {
        var n := Extent(Unquoted, s);
        assert s == s[..n] + s[n..];
        CutExactly(Unquoted, s[..n], s[n..]);
        CutsAreTokens(s[n..]);
        assert Tokens(s)[1..] == Tokens(s[n..]);
      }
    }
  }

  /** Joining tokens with single blanks and splitting again gives the tokens back. */
  lemma {:induction false} SplitUndoesJoin(ws: seq<string>)
    requires AreTokens(ws)
    ensures Tokens(Join(ws)) == ws
  {
    if ws != [] {
      var w, rest := ws[0], ws[1..];
      var x := if rest == [] then "" else " " + Join(rest);
      var s := w + x;
      assert Join(ws) == s;
      CutExactly(Unquoted, w, x);
      assert s[..|w|] == w && s[|w|..] == x;
      SplitUndoesJoin(rest);
      assert rest != [] ==> x[1..] == Join(rest);
    }
  }

  lemma {:induction false} TakenAreTokens(ws: seq<string>, n: nat)
    requires AreTokens(ws) && n <= |ws|
    ensures AreTokens(ws[..n])
  {
    if n > 0 {
      TakenAreTokens(ws[1..], n - 1);
      assert ws[..n][1..] == ws[1..][..n - 1];
    }
  }

  /** Parsing is stable: for every line, the tokens that were kept, joined by single blanks,
      parse to themselves, also when the limit cut some off. */
  lemma ParsingIsStable(line: string, n: nat)
    requires n <= |Tokens(line)|
    ensures Tokens(Join(Tokens(line)[..n])) == Tokens(line)[..n]
  {
    CutsAreTokens(line);
    TakenAreTokens(Tokens(line), n);
    SplitUndoesJoin(Tokens(line)[..n]);
  }

  // ---- tokens without the automaton ----

  function Quotes(w: string): nat {
    if w == "" then 0 else (if w[0] == '"' then 1 else 0) + Quotes(w[1..])
  }

  /** Spaces and tabs occur only behind the first quote and before the second. A word in front of
      more text has closed the quote. */
  ghost predicate IsWord(w: string, more: bool) {
    && w != ""
    && (forall j | 0 <= j < |w| && (w[j] == ' ' || w[j] == '\t') :: Quotes(w[..j]) == 1)
    && (more ==> Quotes(w) != 1)
  }

  ghost predicate IsGap(s: string) {
    forall c <- s :: c == ' ' || c == '\t'
  }

  /** The text is these words, with spaces and tabs between them, and perhaps around them. */
  ghost predicate Splits(ws: seq<string>, s: string)
    decreases |ws|
  {
    if ws == [] then IsGap(s)
    else
      exists gap, rest ::
        && s == gap + (ws[0] + rest) && IsGap(gap)
        && IsWord(ws[0], rest != "") && (rest == "" || rest[0] == ' ' || rest[0] == '\t')
        && Splits(ws[1..], rest)
  }

  function QuotesBefore(p: Place): nat {
    match p case Unquoted => 0 case Quoted => 1 case AfterQuote => 2
  }

  lemma {:induction false} PlaceByQuotes(p: Place, w: string)
    ensures
      var n := QuotesBefore(p) + Quotes(w);
      PlaceAfter(p, w) == if n == 0 then Unquoted else if n == 1 then Quoted else AfterQuote
    decreases |w|
  {
    if w != "" {
      PlaceByQuotes(Next(p, w[0]), w[1..]);
    }
  }

  lemma {:induction false} WholeExtent(p: Place, w: string)
    ensures Extent(p, w) == |w| <==>
      forall j | 0 <= j < |w| && (w[j] == ' ' || w[j] == '\t') :: QuotesBefore(p) + Quotes(w[..j]) == 1
    decreases |w|
  {
    if w != "" {
      WholeExtent(Next(p, w[0]), w[1..]);
      forall j | 0 < j < |w|
        ensures Quotes(w[..j]) == (if w[0] == '"' then 1 else 0) + Quotes(w[1..][..j - 1])
      {
        assert w[..j][1..] == w[1..][..j - 1];
      }
    }
  }

  lemma WordsAreTokens(w: string, more: bool)
    ensures IsWord(w, more) <==> IsToken(w, more)
  {
    WholeExtent(Unquoted, w);
    PlaceByQuotes(Unquoted, w);
    if w != "" {
      assert Quotes(w[..0]) == 0;
    }
  }

  lemma {:induction false} GapHasNoTokens(gap: string, rest: string)
    requires IsGap(gap)
    ensures Tokens(gap + rest) == Tokens(rest)
    decreases |gap|
  {
    if gap == "" {
      assert gap + rest == rest;
    } else {
      assert gap[0] in gap && (gap + rest)[1..] == gap[1..] + rest;
      assert forall c <- gap[1..] :: c in gap;
      GapHasNoTokens(gap[1..], rest);
    }
  }

  lemma WordInFront(w: string, rest: string)
    requires IsWord(w, rest != "") && (rest == "" || IsBlank(rest[0]))
    ensures Tokens(w + rest) == [w] + Tokens(rest)
  {
    WordsAreTokens(w, rest != "");
    CutExactly(Unquoted, w, rest);
    var s := w + rest;
    assert s[..|w|] == w && s[|w|..] == rest;
  }

  lemma {:induction false} SplitsIntoTokens(ws: seq<string>, s: string)
    requires Splits(ws, s)
    ensures Tokens(s) == ws
    decreases |ws|
  {
    if ws == [] {
      assert s + "" == s;
      GapHasNoTokens(s, "");
    } else {
      var gap, rest :|
        && s == gap + (ws[0] + rest) && IsGap(gap)
        && IsWord(ws[0], rest != "") && (rest == "" || rest[0] == ' ' || rest[0] == '\t')
        && Splits(ws[1..], rest);
      SplitsIntoTokens(ws[1..], rest);
      GapHasNoTokens(gap, ws[0] + rest);
      WordInFront(ws[0], rest);
    }
  }

  lemma MoreGap(ws: seq<string>, s: string, c: char)
    requires Splits(ws, s) && (c == ' ' || c == '\t')
    ensures Splits(ws, [c] + s)
  {
    if ws != [] {
      var gap, rest :|
        && s == gap + (ws[0] + rest) && IsGap(gap)
        && IsWord(ws[0], rest != "") && (rest == "" || rest[0] == ' ' || rest[0] == '\t')
        && Splits(ws[1..], rest);
      assert [c] + s == ([c] + gap) + (ws[0] + rest);
      assert IsGap([c] + gap);
    }
  }

  lemma MoreWords(ws: seq<string>, s: string, w: string)
    requires Splits(ws, s) && IsWord(w, s != "") && (s == "" || IsBlank(s[0]))
    ensures Splits([w] + ws, w + s)
  {
    assert w + s == "" + (w + s) && IsGap("");
    assert ([w] + ws)[1..] == ws;
  }

  lemma {:induction false} TokensSplit(s: string)
    ensures Splits(Tokens(s), s)
    decreases |s|
  {
    if s != "" {
      if IsBlank(s[0]) {
        TokensSplit(s[1..]);
        MoreGap(Tokens(s), s[1..], s[0]);
        assert s == [s[0]] + s[1..];
      } else {
        var n := Extent(Unquoted, s);
        TokensSplit(s[n..]);
        assert s == s[..n] + s[n..];
        CutExactly(Unquoted, s[..n], s[n..]);
        WordsAreTokens(s[..n], s[n..] != "");
        MoreWords(Tokens(s[n..]), s[n..], s[..n]);
      }
    }
  }

  /** The tokens of a text are the words that split it: no others do, and these do. */
  lemma TokensExactly(s: string, ws: seq<string>)
    ensures ws == Tokens(s) <==> Splits(ws, s)
  {
    TokensSplit(s);
    if Splits(ws, s) {
      SplitsIntoTokens(ws, s);
    }
  }

  // ---- positional and named arguments ----

  datatype NamedValue = NamedValue(name: string, value: string)

  /** get_named_arg_delim_pos: the first colon, unless the token begins with a quote or the
      colon is followed by a slash, as in a URL. */
  function DelimPos(t: string): (r: Option<nat>)
    ensures r.Some? ==> r.value < |t|
  {
    if t == "" || t[0] == '"' then None
    else
      var colon := IndexOf(t, ':');
      if colon == |t| || (colon + 1 < |t| && t[colon + 1] == '/') then None else Some(colon)
  }

  lemma {:induction false} IndexOfIsFirst(s: string, c: char)
    ensures c !in s[..IndexOf(s, c)] && (IndexOf(s, c) < |s| ==> s[IndexOf(s, c)] == c)
  {
    if s != "" && s[0] != c {
      IndexOfIsFirst(s[1..], c);
      assert s[..IndexOf(s, c)] == [s[0]] + s[1..][..IndexOf(s[1..], c)];
    }
  }

  lemma {:induction false} IndexOfBehind(name: string, c: char, value: string)
    requires c !in name
    ensures IndexOf(name + [c] + value, c) == |name|
  {
    if name != "" {
      assert name[0] in name;
      IndexOfBehind(name[1..], c, value);
      assert (name + [c] + value)[1..] == name[1..] + [c] + value;
    }
  }

  /** What may stand before and after the delimiter. */
  predicate IsNamed(name: string, value: string) {
    && ':' !in name && (name == "" || name[0] != '"')
    && (value == "" || value[0] != '/')
  }

  function Rejoin(v: NamedValue): string {
    v.name + ":" + v.value
  }

  function SplitAt(t: string, colon: nat): NamedValue
    requires colon < |t|
  {
    NamedValue(t[..colon], t[colon + 1..])
  }

  /** A token is split at a colon exactly if it is made of a name and a value, and then it is
      split into just these. */
  lemma SplitsExactlyNamed(t: string, name: string, value: string)
    ensures
      (t == name + ":" + value && IsNamed(name, value))
      <==> (DelimPos(t).Some? && SplitAt(t, DelimPos(t).value) == NamedValue(name, value))
  {
    if t == name + ":" + value && IsNamed(name, value) {
      IndexOfBehind(name, ':', value);
      assert t[..|name|] == name && t[|name| + 1..] == value;
      assert t[0] == if name == "" then ':' else name[0];
    }
    if DelimPos(t).Some? && SplitAt(t, DelimPos(t).value) == NamedValue(name, value) {
      IndexOfIsFirst(t, ':');
      assert t == t[..DelimPos(t).value] + ":" + t[DelimPos(t).value + 1..];
    }
  }

  function PositionalOf(tokens: seq<string>): seq<string> {
    if tokens == [] then []
    else if DelimPos(tokens[0]).None? then [tokens[0]] + PositionalOf(tokens[1..])
    else PositionalOf(tokens[1..])
  }

  function NamedOf(tokens: seq<string>): seq<NamedValue> {
    if tokens == [] then []
    else
      match DelimPos(tokens[0])
      case None => NamedOf(tokens[1..])
      case Some(colon) => [SplitAt(tokens[0], colon)] + NamedOf(tokens[1..])
  }

  lemma {:induction false} SplitAppends(tokens: seq<string>, t: string)
    ensures PositionalOf(tokens + [t]) == PositionalOf(tokens) + if DelimPos(t).None? then [t] else []
    ensures NamedOf(tokens + [t]) ==
      NamedOf(tokens) + if DelimPos(t).Some? then [SplitAt(t, DelimPos(t).value)] else []
  {
    if tokens != [] {
      SplitAppends(tokens[1..], t);
      assert (tokens + [t])[1..] == tokens[1..] + [t];
    }
  }

  method Positional(tokens: seq<string>) returns (r: seq<string>)
    ensures r == PositionalOf(tokens)
  {
    r := [];
    var i := 0;
    while i < |tokens|
      invariant 0 <= i <= |tokens| && r == PositionalOf(tokens[..i])
    {
      SplitAppends(tokens[..i], tokens[i]);
      assert tokens[..i + 1] == tokens[..i] + [tokens[i]];
      if DelimPos(tokens[i]).None? {
        r := r + [tokens[i]];
      }
      i := i + 1;
    }
    assert tokens[..i] == tokens;
  }

  method Named(tokens: seq<string>) returns (r: seq<NamedValue>)
    ensures r == NamedOf(tokens)
  {
    r := [];
    var i := 0;
    while i < |tokens|
      invariant 0 <= i <= |tokens| && r == NamedOf(tokens[..i])
    {
      SplitAppends(tokens[..i], tokens[i]);
      assert tokens[..i + 1] == tokens[..i] + [tokens[i]];
      var delim := DelimPos(tokens[i]);
      if delim.Some? {
        r := r + [SplitAt(tokens[i], delim.value)];
      }
      i := i + 1;
    }
    assert tokens[..i] == tokens;
  }

  method Shift(tokens: seq<string>, count: nat) returns (r: seq<string>)
    ensures r == if count <= |tokens| then tokens[count..] else []
  {
    var skip := Min(count, |tokens|);
    r := [];
    var i := 0;
    while i < |tokens| - skip
      invariant 0 <= i <= |tokens| - skip && r == tokens[skip..skip + i]
    {
      r := r + [tokens[i + skip]];
      i := i + 1;
    }
  }

  ghost predicate HasName(t: string) {
    exists name, value :: t == name + ":" + value && IsNamed(name, value)
  }

  /** Puts tokens back together, taking the next named argument where `isNamed` says so. */
  function Weave(isNamed: seq<bool>, positional: seq<string>, named: seq<NamedValue>): seq<string> {
    if isNamed == [] then []
    else if isNamed[0] then
      if named == [] then [] else [Rejoin(named[0])] + Weave(isNamed[1..], positional, named[1..])
    else
      if positional == [] then [] else [positional[0]] + Weave(isNamed[1..], positional[1..], named)
  }

  /** The split loses nothing: the two lists hold every token once, in order and unchanged. */
  lemma {:induction false} SplitLosesNothing(tokens: seq<string>) returns (isNamed: seq<bool>)
    ensures |isNamed| == |tokens| == |PositionalOf(tokens)| + |NamedOf(tokens)|
    ensures forall i | 0 <= i < |tokens| :: isNamed[i] <==> HasName(tokens[i])
    ensures forall v <- NamedOf(tokens) :: IsNamed(v.name, v.value)
    ensures Weave(isNamed, PositionalOf(tokens), NamedOf(tokens)) == tokens
  {
    if tokens == [] {
      isNamed := [];
    } else {
      var t := tokens[0];
      var rest := SplitLosesNothing(tokens[1..]);
      isNamed := [DelimPos(t).Some?] + rest;
      assert isNamed[1..] == rest;
      assert HasName(t) <==> DelimPos(t).Some? by {
        if name, value :| t == name + ":" + value && IsNamed(name, value) {
          SplitsExactlyNamed(t, name, value);
        }
        if DelimPos(t).Some? {
          var v := SplitAt(t, DelimPos(t).value);
          SplitsExactlyNamed(t, v.name, v.value);
        }
      }
      if DelimPos(t).Some? {
        var colon := DelimPos(t).value;
        IndexOfIsFirst(t, ':');
        SplitsExactlyNamed(t, SplitAt(t, colon).name, SplitAt(t, colon).value);
        assert Rejoin(SplitAt(t, colon)) == t;
        assert NamedOf(tokens)[1..] == NamedOf(tokens[1..]);
      } else {
        assert PositionalOf(tokens)[1..] == PositionalOf(tokens[1..]);
      }
      assert tokens == [t] + tokens[1..];
    }
  }
}
