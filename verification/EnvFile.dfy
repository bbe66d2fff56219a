/**
 Editing the bootstrap `.env` file as text: replacing or adding `KEY="value"` lines, with
 the value escaped, and leaving everything else alone.
 */
module EnvFile {
  import opened Prelude

  // ---------- Text and lines ----------

  /** Index of the first `c`, or the length. */
  function IndexOf(s: string, c: char): (n: nat)
    ensures n <= |s|
  {
    if s == [] || s[0] == c then 0 else 1 + IndexOf(s[1..], c)
  }

  lemma {:induction false} IndexIsFirst(s: string, c: char)
    ensures var n := IndexOf(s, c); c !in s[..n] && (n < |s| ==> s[n] == c)
  {
    if s != [] && s[0] != c {
      var n := IndexOf(s[1..], c);
      IndexIsFirst(s[1..], c);
      assert s[..n + 1] == [s[0]] + s[1..][..n];
    }
  }

  predicate EndsWithCr(line: string) { line != [] && line[|line| - 1] == '\r' }

  function StripCr(line: string): string {
    if EndsWithCr(line) then line[..|line| - 1] else line
  }

  /** `str::lines`: a line ends at `\n` or `\r\n`; a last line without `\n` keeps its `\r`. */
  function Lines(text: string): seq<string> {
    if text == [] then [] else
    var n := IndexOf(text, '\n');
    if n == |text| then [text] else [StripCr(text[..n])] + Lines(text[n + 1..])
  }

  function Unlines(lines: seq<string>): string {
    if lines == [] then [] else lines[0] + "\n" + Unlines(lines[1..])
  }

  function StripAll(lines: seq<string>): seq<string> {
    if lines == [] then [] else [StripCr(lines[0])] + StripAll(lines[1..])
  }

  /** The characters with the Unicode property White_Space. */
  predicate IsSpace(c: char) {
    || '\t' <= c <= '\r' || c == ' ' || c == '\U{85}' || c == '\U{A0}' || c == '\U{1680}'
    || '\U{2000}' <= c <= '\U{200A}' || c == '\U{2028}' || c == '\U{2029}' || c == '\U{202F}'
    || c == '\U{205F}' || c == '\U{3000}'
  }

  const WHITE_SPACE: string := "\t\n\U{0B}\U{0C}\r \U{85}\U{A0}\U{1680}"
    + "\U{2000}\U{2001}\U{2002}\U{2003}\U{2004}\U{2005}\U{2006}\U{2007}\U{2008}\U{2009}\U{200A}"
    + "\U{2028}\U{2029}\U{202F}\U{205F}\U{3000}"

  /** The twenty-five characters of that property, one by one. */
  lemma SpacesListed(c: char)
    ensures IsSpace(c) <==> c in WHITE_SPACE
  {
  }

  function Trim(s: string): string {
    if s != [] && IsSpace(s[0]) then Trim(s[1..])
    else if s != [] && IsSpace(s[|s| - 1]) then Trim(s[..|s| - 1])
    else s
  }

  ghost predicate AllSpace(s: string) {
    forall i | 0 <= i < |s| :: IsSpace(s[i])
  }

  /** Trimming takes away white space at both ends, and all of it. */
  lemma {:induction false} TrimExactly(s: string) returns (a: string, b: string)
    ensures s == a + Trim(s) + b && AllSpace(a) && AllSpace(b)
    ensures Trim(s) != [] ==> !IsSpace(Trim(s)[0]) && !IsSpace(Trim(s)[|Trim(s)| - 1])
    decreases |s|
  {
    a, b := [], [];
    if s != [] && IsSpace(s[0]) {
      a, b := TrimExactly(s[1..]);
      AddFirst(s, a, Trim(s), b);
      a := [s[0]] + a;
    } else if s != [] && IsSpace(s[|s| - 1]) {
      a, b := TrimExactly(s[..|s| - 1]);
      AddLast(s, a, Trim(s), b);
      b := b + [s[|s| - 1]];
    }
  }

  lemma AddFirst(s: string, a: string, t: string, b: string)
    requires s != [] && s[1..] == a + t + b
    ensures s == ([s[0]] + a) + t + b
  {
    assert s == [s[0]] + s[1..];
  }

  lemma AddLast(s: string, a: string, t: string, b: string)
    requires s != [] && s[..|s| - 1] == a + t + b
    ensures s == a + t + (b + [s[|s| - 1]])
  {
    assert s == s[..|s| - 1] + [s[|s| - 1]];
  }

  lemma {:induction false} TrimSpaces(a: string, key: string, b: string)
    requires AllSpace(a) && AllSpace(b) && Trim(key) == key
    ensures Trim(a + key + b) == key
    decreases |a| + |b|
  {
    var s := a + key + b;
    if a != [] {
      assert s[1..] == a[1..] + key + b;
      TrimSpaces(a[1..], key, b);
    } else if b != [] {
      var n := |b| - 1;
      assert s == key + b && s[|s| - 1] == b[n] && s[..|s| - 1] == a + key + b[..n];
      TrimSpaces(a, key, b[..n]);
      TrimFromEnd(s);
    } else {
      assert s == key;
    }
  }

  /** It does not matter which end is trimmed first. */
  lemma {:induction false} TrimFromEnd(s: string)
    requires s != [] && IsSpace(s[|s| - 1])
    ensures Trim(s) == Trim(s[..|s| - 1])
    decreases |s|
  {
    if IsSpace(s[0]) {
      if |s| == 1 {
        assert s[1..] == s[..|s| - 1];
      } else {
        TrimFromEnd(s[1..]);
        assert s[1..][..|s| - 2] == s[..|s| - 1][1..];
      }
    }
  }

  /** The trimmed text before the first `=`. */
  function KeyOf(line: string): Option<string> {
    var n := IndexOf(line, '=');
    if n == |line| then None else Some(Trim(line[..n]))
  }

  // ---------- Escaping ----------

  /** `str::replace` of one character. */
  function Replace(s: string, c: char, with: string): string {
    if s == [] then [] else (if s[0] == c then with else [s[0]]) + Replace(s[1..], c, with)
  }

  /** The two chained replaces, backslash first. */
  function Escaped(value: string): string {
    Replace(Replace(value, '\\', "\\\\"), '"', "\\\"")
  }

  /** Both characters escaped in a single pass. */
  function EscapedOnce(value: string): string {
    if value == [] then []
    else (if value[0] == '\\' then "\\\\" else if value[0] == '"' then "\\\"" else [value[0]]) + EscapedOnce(value[1..])
  }

  /** Reads up to the first unescaped quote; gives the value and what follows the quote. */
  function Unescaped(s: string): (r: Option<(string, string)>)
    ensures r.Some? ==> |r.value.1| < |s|
    decreases |s|
  {
    if s == [] then None
    else if s[0] == '"' then Some(([], s[1..]))
    else if s[0] == '\\' then
      if |s| < 2 then None else
      var r := Unescaped(s[2..]);
      if r.None? then None else Some(([s[1]] + r.value.0, r.value.1))
    else
      var r := Unescaped(s[1..]);
      if r.None? then None else Some(([s[0]] + r.value.0, r.value.1))
  }

  lemma {:induction false} ReplaceConcat(a: string, b: string, c: char, with: string)
    ensures Replace(a + b, c, with) == Replace(a, c, with) + Replace(b, c, with)
  {
    if a == [] {
      assert a + b == b;
    } else {
      assert (a + b)[1..] == a[1..] + b;
      ReplaceConcat(a[1..], b, c, with);
    }
  }

  lemma ReplaceFirstChar(c: char)
    ensures Replace(if c == '\\' then "\\\\" else [c], '"', "\\\"") ==
            if c == '\\' then "\\\\" else if c == '"' then "\\\"" else [c]
  {
    if c == '\\' {
      assert "\\\\"[1..] == "\\" && "\\\\"[1..][1..] == "";
    } else {
      assert [c][1..] == [];
    }
  }

  /** Chaining the replaces escapes no character twice. */
  lemma {:induction false} EscapedIsOnePass(value: string)
    ensures Escaped(value) == EscapedOnce(value)
  {
    if value != [] {
      var first := if value[0] == '\\' then "\\\\" else [value[0]];
      ReplaceConcat(first, Replace(value[1..], '\\', "\\\\"), '"', "\\\"");
      ReplaceFirstChar(value[0]);
      EscapedIsOnePass(value[1..]);
    }
  }

  lemma ConcatFour<T>(a: seq<T>, b: seq<T>, c: seq<T>, d: seq<T>)
    ensures (a + b) + c + d == a + (b + c + d)
  {
  }

  lemma ConcatSeven<T>(a: seq<T>, b: seq<T>, c: seq<T>, d: seq<T>, e: seq<T>, f: seq<T>, g: seq<T>)
    ensures a + b + (c + d + e) + f + g == (a + b + c) + d + (e + f) + g
  {
  }

  lemma UnescapedStep(c: char, tail: string)
    requires Unescaped(tail).Some?
    ensures var r := Unescaped(tail).value;
            && Unescaped(['\\', c] + tail) == Some(([c] + r.0, r.1))
            && (c != '"' && c != '\\' ==> Unescaped([c] + tail) == Some(([c] + r.0, r.1)))
  {
  }

  lemma {:induction false} UnescapedOnePass(value: string, rest: string)
    ensures Unescaped(EscapedOnce(value) + "\"" + rest) == Some((value, rest))
  {
    if value == [] {
      assert EscapedOnce(value) + "\"" + rest == "\"" + rest;
    } else {
      var tail := EscapedOnce(value[1..]) + "\"" + rest;
      UnescapedOnePass(value[1..], rest);
      UnescapedStep(value[0], tail);
      var head := if value[0] == '\\' || value[0] == '"' then ['\\', value[0]] else [value[0]];
      assert EscapedOnce(value) == head + EscapedOnce(value[1..]);
      ConcatFour(head, EscapedOnce(value[1..]), "\"", rest);
      assert [value[0]] + value[1..] == value;
    }
  }

  /** Whatever the value, the written text reads back as it, and the quote that ends it is
      the one that was written. */
  lemma EscapeRoundTrip(value: string, rest: string)
    ensures Unescaped(Escaped(value) + "\"" + rest) == Some((value, rest))
  {
    EscapedIsOnePass(value);
    UnescapedOnePass(value, rest);
  }

  // ---------- The batch upsert ----------

  type Var = (string, string)

  function Entry(v: Var): string {
    v.0 + "=\"" + Escaped(v.1) + "\""
  }

  function Entries(vars: seq<Var>): seq<string> {
    if vars == [] then [] else [Entry(vars[0])] + Entries(vars[1..])
  }

  function Keys(vars: seq<Var>): set<string> {
    set v | v in vars :: v.0
  }

  function Untouched(keys: set<string>): string -> bool {
    line => !(KeyOf(line).Some? && KeyOf(line).value in keys)
  }

  function Upserted(text: string, vars: seq<Var>): string {
    Unlines(Filter(Untouched(Keys(vars)), Lines(text)) + Entries(vars))
  }

  /** One line `key="escaped"` per variable after what is already there. */
  method AppendEntries(start: string, vars: seq<Var>) returns (content: string)
    ensures content == start + Unlines(Entries(vars))
  {
    content := start;
    for i := 0 to |vars|
      invariant content + Unlines(Entries(vars[i..])) == start + Unlines(Entries(vars))
    {
      UnlinesStep(content, Entries(vars[i..]));
      assert vars[i..][1..] == vars[i + 1..];
      content := content + Entry(vars[i]) + "\n";
    }
  }

  /** Writing a whole new file. */
  method SaveBootstrapEnv(vars: seq<Var>) returns (content: string)
    ensures content == Unlines(Entries(vars))
  {
    content := AppendEntries("", vars);
  }

  /** Both copies of the batch upsert; a file that does not exist reads as the empty text. */
  method UpsertBootstrapVars(existing: string, vars: seq<Var>) returns (result: string)
    ensures result == Upserted(existing, vars)
  {
    var keys := Keys(vars);
    var lines := Lines(existing);
    result := "";
    for i := 0 to |lines|
      invariant result + Unlines(Filter(Untouched(keys), lines[i..])) == Unlines(Filter(Untouched(keys), lines))
    {
      var line := lines[i];
      var key := KeyOf(line);
      var isOverwritten := key.Some? && key.value in keys;
      UnlinesStep(result, Filter(Untouched(keys), lines[i..]));
      assert lines[i..][1..] == lines[i + 1..];
      if !isOverwritten {
        result := result + line + "\n";
      }
    }
    UnlinesConcat(Filter(Untouched(keys), lines), Entries(vars));
    result := AppendEntries(result, vars);
  }

  lemma UnlinesStep(start: string, lines: seq<string>)
    ensures lines != [] ==> start + Unlines(lines) == start + lines[0] + "\n" + Unlines(lines[1..])
  {
  }

  lemma {:induction false} UnlinesConcat(a: seq<string>, b: seq<string>)
    ensures Unlines(a + b) == Unlines(a) + Unlines(b)
    ensures |b| == 1 ==> Unlines(b) == b[0] + "\n"
  {
    if a == [] {
      assert a + b == b;
    } else {
      assert (a + b)[1..] == a[1..] + b;
      UnlinesConcat(a[1..], b);
    }
  }

  // ---------- What the new file reads as ----------

  ghost predicate NoNewlines(lines: seq<string>) {
    forall l | l in lines :: '\n' !in l
  }

  lemma {:induction false} LinesHaveNoNewline(text: string)
    ensures NoNewlines(Lines(text))
    decreases |text|
  {
    if text != [] {
      var n := IndexOf(text, '\n');
      IndexIsFirst(text, '\n');
      if n == |text| {
        assert text[..n] == text;
      } else {
        LinesHaveNoNewline(text[n + 1..]);
        forall l | l in Lines(text) ensures '\n' !in l {
          assert l == StripCr(text[..n]) || l in Lines(text[n + 1..]);
        }
      }
    }
  }

  /** A last line without a newline is kept whole, its `\r` too. */
  lemma LastLineIsWhole(line: string)
    requires line != [] && '\n' !in line
    ensures Lines(line) == [line]
  {
    IndexAbsent(line, '\n');
  }

  lemma {:induction false} IndexAbsent(s: string, c: char)
    requires c !in s
    ensures IndexOf(s, c) == |s|
  {
    if s != [] { IndexAbsent(s[1..], c); }
  }

  lemma {:induction false} IndexAtEnd(a: string, c: char, b: string)
    requires c !in a
    ensures IndexOf(a + [c] + b, c) == |a|
  {
    if a == [] {
      assert a + [c] + b == [c] + b;
    } else {
      assert (a + [c] + b)[1..] == a[1..] + [c] + b;
      IndexAtEnd(a[1..], c, b);
    }
  }

  /** Reading lines back loses one trailing `\r` of each and nothing else. */
  lemma {:induction false} LinesOfUnlines(lines: seq<string>, rest: string)
    requires NoNewlines(lines)
    ensures Lines(Unlines(lines) + rest) == StripAll(lines) + Lines(rest)
    decreases |lines|
  {
    if lines == [] {
      assert Unlines(lines) + rest == rest;
      assert StripAll(lines) + Lines(rest) == Lines(rest);
    } else {
      var l, tail := lines[0], Unlines(lines[1..]) + rest;
      assert l in lines;
      assert Unlines(lines) + rest == l + "\n" + tail;
      FirstLine(l, tail);
      LinesOfUnlines(lines[1..], rest);
      ConcatCons(StripCr(l), StripAll(lines[1..]), Lines(rest));
    }
  }

  lemma ConcatCons<T>(x: T, a: seq<T>, b: seq<T>)
    ensures [x] + (a + b) == ([x] + a) + b
  {
  }

  lemma FirstLine(line: string, rest: string)
    requires '\n' !in line
    ensures Lines(line + "\n" + rest) == [StripCr(line)] + Lines(rest)
  {
    IndexAtEnd(line, '\n', rest);
    var text := line + "\n" + rest;
    assert text[..|line|] == line && text[|line| + 1..] == rest;
  }

  /** Keys and values that stay on their line, with keys as a reader would find them. */
  ghost predicate Clean(vars: seq<Var>) {
    forall v | v in vars :: '\n' !in v.0 && '\n' !in v.1 && '=' !in v.0 && Trim(v.0) == v.0
  }

  lemma {:induction false} EscapedHas(value: string, c: char)
    requires c != '\\' && c != '"'
    ensures c in EscapedOnce(value) <==> c in value
  {
    if value != [] {
      EscapedHas(value[1..], c);
      assert value == [value[0]] + value[1..];
    }
  }

  lemma EntryFacts(v: Var)
    requires '\n' !in v.0 && '\n' !in v.1 && '=' !in v.0 && Trim(v.0) == v.0
    ensures '\n' !in Entry(v) && StripCr(Entry(v)) == Entry(v) && KeyOf(Entry(v)) == Some(v.0)
  {
    EscapedIsOnePass(v.1);
    EscapedHas(v.1, '\n');
    var rest := "\"" + Escaped(v.1) + "\"";
    assert Entry(v) == v.0 + ['='] + rest;
    IndexAtEnd(v.0, '=', rest);
    assert Entry(v)[..|v.0|] == v.0;
  }

  lemma {:induction false} EntriesFacts(vars: seq<Var>)
    requires Clean(vars)
    ensures NoNewlines(Entries(vars)) && StripAll(Entries(vars)) == Entries(vars)
    ensures forall l | l in Entries(vars) :: KeyOf(l).Some? && KeyOf(l).value in Keys(vars)
  {
    if vars != [] {
      EntryFacts(vars[0]);
      EntriesFacts(vars[1..]);
      assert Clean(vars[1..]) && vars[0] in vars;
      forall l | l in Entries(vars) ensures '\n' !in l && KeyOf(l).Some? && KeyOf(l).value in Keys(vars) {
        assert l == Entry(vars[0]) || l in Entries(vars[1..]);
      }
    }
  }

  lemma {:induction false} FilterIsSubset(test: string -> bool, lines: seq<string>)
    ensures forall l | l in Filter(test, lines) :: l in lines && test(l)
  {
    if lines != [] { FilterIsSubset(test, lines[1..]); }
  }

  /** The lines of the new file: the untouched old ones in order, then those of the
      entries in the given order. */
  lemma UpsertedLines(text: string, vars: seq<Var>)
    ensures Lines(Upserted(text, vars)) ==
            StripAll(Filter(Untouched(Keys(vars)), Lines(text))) + Lines(Unlines(Entries(vars)))
  {
    var kept := Filter(Untouched(Keys(vars)), Lines(text));
    LinesHaveNoNewline(text);
    FilterIsSubset(Untouched(Keys(vars)), Lines(text));
    UnlinesConcat(kept, Entries(vars));
    LinesOfUnlines(kept, Unlines(Entries(vars)));
  }

  /** The lines of the entries that a later upsert of the same variables would not find. */
  function Leftover(vars: seq<Var>): seq<string> {
    Filter(Untouched(Keys(vars)), Lines(Unlines(Entries(vars))))
  }

  lemma CleanLeavesNothing(vars: seq<Var>)
    requires Clean(vars)
    ensures Lines(Unlines(Entries(vars))) == Entries(vars) && Leftover(vars) == []
  {
    EntriesFacts(vars);
    LinesOfUnlines(Entries(vars), "");
    assert Unlines(Entries(vars)) + "" == Unlines(Entries(vars));
    assert StripAll(Entries(vars)) + Lines("") == Entries(vars);
    FilterNone(Untouched(Keys(vars)), Entries(vars));
  }

  lemma StripKeepsKey(line: string)
    ensures KeyOf(StripCr(line)) == KeyOf(line)
  {
    if EndsWithCr(line) {
      var short, n := StripCr(line), IndexOf(line, '=');
      IndexIsFirst(line, '=');
      if n == |line| {
        assert line[..n] == line;
        assert '=' !in short;
        IndexIsFirst(short, '=');
      } else {
        assert n < |short|;
        var a, b := short[..n], short[n + 1..];
        assert a == line[..n] && short == a + ['='] + b;
        IndexAtEnd(a, '=', b);
      }
    }
  }

  lemma {:induction false} StripKeepsUntouched(keys: set<string>, lines: seq<string>)
    requires forall l | l in lines :: Untouched(keys)(l)
    ensures forall l | l in StripAll(lines) :: Untouched(keys)(l)
    decreases |lines|
  {
    if lines != [] {
      assert lines[0] in lines;
      StripKeepsKey(lines[0]);
      StripKeepsUntouched(keys, lines[1..]);
    }
  }

  /** A line is replaced however much white space is around its key. */
  lemma SpacedKeyIsReplaced(a: string, key: string, b: string, rest: string, keys: set<string>)
    requires AllSpace(a) && AllSpace(b) && Trim(key) == key && '=' !in key
    ensures Untouched(keys)(a + key + b + "=" + rest) <==> key !in keys
  {
    var line := a + key + b;
    assert forall i | 0 <= i < |line| :: line[i] != '=';
    IndexAtEnd(line, '=', rest);
    assert (line + "=" + rest)[..|line|] == line;
    TrimSpaces(a, key, b);
  }

  /** What is untouched by the keys afterwards is what was untouched before. */
  lemma UpsertKeepsOtherLines(text: string, vars: seq<Var>)
    ensures Filter(Untouched(Keys(vars)), Lines(Upserted(text, vars))) ==
            StripAll(Filter(Untouched(Keys(vars)), Lines(text))) + Leftover(vars)
  {
    var keys := Keys(vars);
    var kept := Filter(Untouched(keys), Lines(text));
    UpsertedLines(text, vars);
    FilterIsSubset(Untouched(keys), Lines(text));
    StripKeepsUntouched(keys, kept);
    FilterConcat(Untouched(keys), StripAll(kept), Lines(Unlines(Entries(vars))));
    FilterAll(Untouched(keys), StripAll(kept));
  }

  function HasKey(key: string): string -> bool {
    line => KeyOf(line) == Some(key)
  }

  /** What the new file says about a written key depends on the variables alone. */
  lemma UpsertForgetsOldValues(text: string, vars: seq<Var>, key: string)
    requires key in Keys(vars)
    ensures Filter(HasKey(key), Lines(Upserted(text, vars))) == Filter(HasKey(key), Lines(Unlines(Entries(vars))))
  {
    var keys := Keys(vars);
    var kept := Filter(Untouched(keys), Lines(text));
    UpsertedLines(text, vars);
    FilterIsSubset(Untouched(keys), Lines(text));
    StripKeepsUntouched(keys, kept);
    FilterConcat(HasKey(key), StripAll(kept), Lines(Unlines(Entries(vars))));
    FilterNone(HasKey(key), StripAll(kept));
  }

  function Named(key: string): Var -> bool {
    (v: Var) => v.0 == key
  }

  /** A written key ends up with one line for each variable that names it, in order, however
      many it had: with distinct keys, exactly one. */
  lemma UpsertWritesEachKeyOnce(text: string, vars: seq<Var>, key: string)
    requires Clean(vars) && key in Keys(vars)
    ensures Filter(HasKey(key), Lines(Upserted(text, vars))) == Entries(Filter(Named(key), vars))
  {
    UpsertForgetsOldValues(text, vars, key);
    CleanLeavesNothing(vars);
    EntriesOfKey(vars, key);
  }

  lemma {:induction false} EntriesOfKey(vars: seq<Var>, key: string)
    requires Clean(vars)
    ensures Filter(HasKey(key), Entries(vars)) == Entries(Filter(Named(key), vars))
    decreases |vars|
  {
    if vars != [] {
      assert vars[0] in vars;
      EntryFacts(vars[0]);
      EntriesOfKey(vars[1..], key);
      assert Entries(vars)[0] == Entry(vars[0]) && Entries(vars)[1..] == Entries(vars[1..]);
      if Named(key)(vars[0]) {
        var rest := Filter(Named(key), vars[1..]);
        assert ([vars[0]] + rest)[1..] == rest;
      }
    }
  }

  // ---------- Reading a written file ----------

  /** The variables of a text of entries `key="escaped"`, each ended by a newline. */
  function Decoded(text: string): Option<seq<Var>>
    decreases |text|
  {
    if text == [] then Some([]) else
    var n := IndexOf(text, '=');
    if |text| < n + 2 || text[n + 1] != '"' then None else
    var r := Unescaped(text[n + 2..]);
    if r.None? || r.value.1 == [] || r.value.1[0] != '\n' then None else
    var rest := Decoded(r.value.1[1..]);
    if rest.None? then None else Some([(text[..n], r.value.0)] + rest.value)
  }

  lemma EntryDecodes(v: Var, rest: string)
    requires '=' !in v.0
    ensures var text := Entry(v) + "\n" + rest;
            && IndexOf(text, '=') == |v.0| && |text| >= |v.0| + 2 && text[|v.0| + 1] == '"' && text[..|v.0|] == v.0
            && Unescaped(text[|v.0| + 2..]) == Some((v.1, "\n" + rest))
  {
    var text, tail := Entry(v) + "\n" + rest, Escaped(v.1) + "\"" + ("\n" + rest);
    assert text == v.0 + ['='] + ("\"" + tail);
    IndexAtEnd(v.0, '=', "\"" + tail);
    assert text[..|v.0|] == v.0 && text[|v.0| + 2..] == tail;
    EscapeRoundTrip(v.1, "\n" + rest);
  }

  lemma {:induction false} EntriesDecode(vars: seq<Var>)
    requires forall v | v in vars :: '=' !in v.0
    ensures Decoded(Unlines(Entries(vars))) == Some(vars)
  {
    if vars != [] {
      var v, rest := vars[0], Unlines(Entries(vars[1..]));
      assert v in vars && Entries(vars)[1..] == Entries(vars[1..]);
      EntryDecodes(v, rest);
      EntriesDecode(vars[1..]);
      assert ("\n" + rest)[1..] == rest;
      assert [v] + vars[1..] == vars;
    }
  }

  lemma {:induction false} DecodedKeys(text: string)
    ensures Decoded(text).Some? ==> forall v | v in Decoded(text).value :: '=' !in v.0
    decreases |text|
  {
    if Decoded(text).Some? && text != [] {
      var n := IndexOf(text, '=');
      IndexIsFirst(text, '=');
      DecodedKeys(Unescaped(text[n + 2..]).value.1[1..]);
    }
  }

  /** A saved file reads back as the variables that were saved, in order, exactly when no key
      has an equals sign. Values may hold anything, newlines too. */
  lemma SaveRoundTrip(vars: seq<Var>)
    ensures Decoded(Unlines(Entries(vars))) == Some(vars) <==> forall v | v in vars :: '=' !in v.0
  {
    DecodedKeys(Unlines(Entries(vars)));
    if forall v | v in vars :: '=' !in v.0 { EntriesDecode(vars); }
  }

  // ---------- Doing it twice ----------

  ghost predicate NoCr(lines: seq<string>) {
    forall l | l in lines :: !EndsWithCr(l)
  }

  lemma {:induction false} NoCrStrip(lines: seq<string>)
    requires NoCr(lines)
    ensures StripAll(lines) == lines
  {
    if lines != [] {
      assert lines[0] in lines;
      NoCrStrip(lines[1..]);
    }
  }

  /** Text tells lines apart: stripping a `\r` always shows. */
  lemma {:induction false} SameTextOnlyIfUnstripped(lines: seq<string>, x: string, y: string)
    requires Unlines(StripAll(lines)) + x == Unlines(lines) + y
    ensures NoCr(lines) && x == y
    decreases |lines|
  {
    if lines == [] {
      assert Unlines(lines) + x == x && Unlines(lines) + y == y;
    } else {
      var l, a, b := lines[0], Unlines(StripAll(lines[1..])) + x, Unlines(lines[1..]) + y;
      assert StripAll(lines)[0] == StripCr(l) && StripAll(lines)[1..] == StripAll(lines[1..]);
      assert Unlines(StripAll(lines)) + x == StripCr(l) + "\n" + a;
      assert Unlines(lines) + y == l + "\n" + b;
      SameFirstLine(l, a, b);
      SameTextOnlyIfUnstripped(lines[1..], x, y);
    }
  }

  lemma SameFirstLine(line: string, a: string, b: string)
    requires StripCr(line) + "\n" + a == line + "\n" + b
    ensures !EndsWithCr(line) && a == b
  {
    if EndsWithCr(line) {
      StripShows(line, a, b);
    } else {
      assert (line + "\n" + a)[|line| + 1..] == a && (line + "\n" + b)[|line| + 1..] == b;
    }
  }

  lemma StripShows(line: string, a: string, b: string)
    requires EndsWithCr(line)
    ensures StripCr(line) + "\n" + a != line + "\n" + b
  {
    var i := |line| - 1;
    assert (StripCr(line) + "\n" + a)[i] == '\n' && (line + "\n" + b)[i] == '\r';
  }

  lemma SameTail(a: string, b: string, c: string)
    ensures a + b == a + c <==> b == c
    ensures b + c == c <==> b == []
  {
    assert (a + b)[|a|..] == b && (a + c)[|a|..] == c;
    if b + c == c { assert |b| == 0; }
  }

  /** Two texts that differ at most in stripping and in extra lines, before the same rest. */
  lemma TextsAgreeExactly(kept: seq<string>, extra: seq<string>, rest: string)
    ensures Unlines(StripAll(kept)) + (Unlines(extra) + rest) == Unlines(kept) + rest <==> NoCr(kept) && extra == []
  {
    if NoCr(kept) && extra == [] {
      NoCrStrip(kept);
      assert Unlines(extra) + rest == rest;
    } else if Unlines(StripAll(kept)) + (Unlines(extra) + rest) == Unlines(kept) + rest {
      SameTextOnlyIfUnstripped(kept, Unlines(extra) + rest, rest);
      SameTail("", Unlines(extra), rest);
    }
  }

  lemma UpsertTwice(text: string, vars: seq<Var>)
    ensures var kept, rest := Filter(Untouched(Keys(vars)), Lines(text)), Unlines(Entries(vars));
            && Upserted(text, vars) == Unlines(kept) + rest
            && Upserted(Upserted(text, vars), vars) == Unlines(StripAll(kept)) + (Unlines(Leftover(vars)) + rest)
  {
    var kept, rest := Filter(Untouched(Keys(vars)), Lines(text)), Unlines(Entries(vars));
    UpsertKeepsOtherLines(text, vars);
    UnlinesConcat(kept, Entries(vars));
    UnlinesConcat(StripAll(kept) + Leftover(vars), Entries(vars));
    UnlinesConcat(StripAll(kept), Leftover(vars));
    ConcatThree(Unlines(StripAll(kept)), Unlines(Leftover(vars)), rest);
  }

  lemma ConcatThree<T>(a: seq<T>, b: seq<T>, c: seq<T>)
    ensures (a + b) + c == a + (b + c)
  {
  }

  /** A second identical upsert changes nothing exactly when no untouched line ends in a
      carriage return, as one does before `\r\n` or at the end of a file without a final
      newline, and every line written for the variables is one their keys would replace. */
  lemma UpsertIdempotentExactly(text: string, vars: seq<Var>)
    ensures Upserted(Upserted(text, vars), vars) == Upserted(text, vars) <==>
            NoCr(Filter(Untouched(Keys(vars)), Lines(text))) && Leftover(vars) == []
  {
    UpsertTwice(text, vars);
    TextsAgreeExactly(Filter(Untouched(Keys(vars)), Lines(text)), Leftover(vars), Unlines(Entries(vars)));
  }

  /** A comment that ends in two carriage returns and a newline loses one each time. */
  lemma DoubleCrIsNotKept(line: string, vars: seq<Var>)
    requires '\n' !in line && '=' !in line && EndsWithCr(line)
    ensures Upserted(Upserted(line + "\r" + "\n", vars), vars) != Upserted(line + "\r" + "\n", vars)
  {
    var text := line + "\r" + "\n";
    FirstLine(line + "\r", "");
    assert text + "" == text;
    assert StripCr(line + "\r") == line;
    assert Lines(text) == [line];
    IndexIsFirst(line, '=');
    assert Filter(Untouched(Keys(vars)), [line]) == [line];
    assert line in [line];
    UpsertIdempotentExactly(text, vars);
  }

  lemma {:induction false} EscapedConcat(a: string, b: string)
    ensures EscapedOnce(a + b) == EscapedOnce(a) + EscapedOnce(b)
  {
    if a == [] {
      assert a + b == b;
    } else {
      assert (a + b)[1..] == a[1..] + b;
      EscapedConcat(a[1..], b);
    }
  }

  /** A value with a newline leaves its second line behind. */
  lemma NewlineValueIsNotReplaced(text: string, key: string, a: string, b: string)
    requires '\n' !in key && '\n' !in a && '\n' !in b && '=' !in b
    ensures var vars := [(key, a + "\n" + b)];
            Upserted(Upserted(text, vars), vars) != Upserted(text, vars)
  {
    var v := (key, a + "\n" + b);
    var first, second := key + "=\"" + EscapedOnce(a), EscapedOnce(b) + "\"";
    TwoLineEntry(key, a, b);
    assert Unlines(Entries([v])) == Entry(v) + "\n";
    EscapedHas(b, '=');
    IndexIsFirst(second, '=');
    FilterKeeps(Untouched(Keys([v])), [StripCr(first)], second);
    UpsertIdempotentExactly(text, [v]);
  }

  lemma EscapedTwoLines(a: string, b: string)
    ensures Escaped(a + "\n" + b) == EscapedOnce(a) + "\n" + EscapedOnce(b)
  {
    EscapedIsOnePass(a + "\n" + b);
    EscapedConcat(a + "\n", b);
    EscapedConcat(a, "\n");
    assert EscapedOnce("\n") == "\n";
  }

  lemma TwoLineEntry(key: string, a: string, b: string)
    requires '\n' !in key && '\n' !in a && '\n' !in b
    ensures Lines(Entry((key, a + "\n" + b)) + "\n") ==
            [StripCr(key + "=\"" + EscapedOnce(a))] + [EscapedOnce(b) + "\""]
  {
    EscapedTwoLines(a, b);
    EscapedHas(a, '\n');
    EscapedHas(b, '\n');
    ConcatSeven(key, "=\"", EscapedOnce(a), "\n", EscapedOnce(b), "\"", "\n");
    TwoLines(Entry((key, a + "\n" + b)) + "\n", key + "=\"" + EscapedOnce(a), EscapedOnce(b) + "\"");
  }

  lemma TwoLines(text: string, first: string, second: string)
    requires '\n' !in first && '\n' !in second && !EndsWithCr(second)
    requires text == first + "\n" + second + "\n"
    ensures Lines(text) == [StripCr(first)] + [second]
  {
    assert text == first + "\n" + (second + "\n" + "");
    FirstLine(first, second + "\n" + "");
    FirstLine(second, "");
  }

  lemma FilterKeeps(test: string -> bool, lines: seq<string>, line: string)
    requires test(line)
    ensures Filter(test, lines + [line]) != []
  {
    FilterConcat(test, lines, [line]);
    assert Filter(test, [line]) == [line];
  }

  // ---------- The single upsert ----------

  function StartsWith(prefix: string): string -> bool {
    line => prefix <= line
  }

  function Lacks(prefix: string): string -> bool {
    line => !(prefix <= line)
  }

  /** The new line stands where the first old one was, or last; the other lines stay. */
  function Placed(lines: seq<string>, prefix: string, entry: string): seq<string> {
    if lines == [] then [entry]
    else if prefix <= lines[0] then [entry] + Filter(Lacks(prefix), lines[1..])
    else [lines[0]] + Placed(lines[1..], prefix, entry)
  }

  function UpsertedOne(text: string, v: Var): string {
    Unlines(Placed(Lines(text), v.0 + "=", Entry(v)))
  }

  method PlaceLine(lines: seq<string>, prefix: string, newLine: string) returns (result: string)
    ensures result == Unlines(Placed(lines, prefix, newLine))
  {
    var found := false;
    result := "";
    for i := 0 to |lines|
      invariant Unlines(Placed(lines, prefix, newLine)) == result +
                Unlines(if found then Filter(Lacks(prefix), lines[i..]) else Placed(lines[i..], prefix, newLine))
    {
      var line := lines[i];
      assert lines[i..][1..] == lines[i + 1..];
      UnlinesStep(result, Filter(Lacks(prefix), lines[i..]));
      UnlinesStep(result, Placed(lines[i..], prefix, newLine));
      if prefix <= line {
        if !found {
          result := result + newLine + "\n";
          found := true;
        }
        continue;
      }
      result := result + line + "\n";
    }
    if !found {
      result := result + newLine + "\n";
    }
  }

  method UpsertBootstrapVar(existing: string, key: string, value: string) returns (result: string)
    ensures result == UpsertedOne(existing, (key, value))
  {
    result := PlaceLine(Lines(existing), key + "=", Entry((key, value)));
  }

  // ---------- What the single upsert leaves ----------

  /** The lines before the first one with the prefix. */
  function Before(lines: seq<string>, prefix: string): seq<string> {
    if lines == [] || prefix <= lines[0] then [] else [lines[0]] + Before(lines[1..], prefix)
  }

  /** The lines after it that lack the prefix. */
  function After(lines: seq<string>, prefix: string): seq<string> {
    if lines == [] then []
    else if prefix <= lines[0] then Filter(Lacks(prefix), lines[1..])
    else After(lines[1..], prefix)
  }

  lemma {:induction false} PlacedForm(lines: seq<string>, prefix: string, entry: string)
    ensures Placed(lines, prefix, entry) == Before(lines, prefix) + [entry] + After(lines, prefix)
    ensures Filter(Lacks(prefix), lines) == Before(lines, prefix) + After(lines, prefix)
  {
    if lines == [] {
    } else if prefix <= lines[0] {
      assert [] + [entry] + After(lines, prefix) == [entry] + After(lines, prefix);
      assert [] + After(lines, prefix) == After(lines, prefix);
    } else {
      PlacedForm(lines[1..], prefix, entry);
      ConcatCons(lines[0], Before(lines[1..], prefix) + [entry], After(lines, prefix));
      ConcatCons(lines[0], Before(lines[1..], prefix), [entry]);
      ConcatCons(lines[0], Before(lines[1..], prefix), After(lines, prefix));
    }
  }

  /** The untouched lines, in two parts. */
  lemma PartsLack(text: string, prefix: string)
    ensures var before, after := Before(Lines(text), prefix), After(Lines(text), prefix);
            && NoNewlines(before) && NoNewlines(after)
            && (forall l | l in before :: Lacks(prefix)(l)) && (forall l | l in after :: Lacks(prefix)(l))
  {
    var before, after := Before(Lines(text), prefix), After(Lines(text), prefix);
    LinesHaveNoNewline(text);
    PlacedForm(Lines(text), prefix, "");
    FilterIsSubset(Lacks(prefix), Lines(text));
    assert forall l | l in before || l in after :: l in before + after;
  }

  /** Lines up to a newline are read on their own. */
  lemma {:induction false} LinesConcat(a: string, b: string)
    ensures Lines(a + "\n" + b) == Lines(a + "\n") + Lines(b)
    decreases |a|
  {
    var n := IndexOf(a, '\n');
    IndexIsFirst(a, '\n');
    assert a + "\n" + "" == a + "\n";
    if n == |a| {
      assert a[..n] == a;
      FirstLine(a, b);
      FirstLine(a, "");
      assert [StripCr(a)] + Lines("") == [StripCr(a)];
    } else {
      var head, tail := a[..n], a[n + 1..];
      assert a + "\n" + b == head + "\n" + (tail + "\n" + b);
      assert a + "\n" == head + "\n" + (tail + "\n");
      FirstLine(head, tail + "\n" + b);
      FirstLine(head, tail + "\n");
      LinesConcat(tail, b);
      ConcatCons(StripCr(head), Lines(tail + "\n"), Lines(b));
    }
  }

  function EntryLines(v: Var): seq<string> {
    Lines(Entry(v) + "\n")
  }

  /** The lines of the entry that a later upsert of the same variable would not find. */
  function LeftoverOne(v: Var): seq<string> {
    Filter(Lacks(v.0 + "="), EntryLines(v))
  }

  /** Unlines of the placed lines, around the entry. */
  function Around(before: seq<string>, v: Var, after: seq<string>): string {
    Unlines(before) + (Entry(v) + "\n" + Unlines(after))
  }

  lemma UnlinesAround(before: seq<string>, v: Var, after: seq<string>)
    ensures Unlines(before + [Entry(v)] + after) == Around(before, v, after)
  {
    UnlinesConcat(before + [Entry(v)], after);
    UnlinesConcat(before, [Entry(v)]);
    assert Unlines(before) + (Entry(v) + "\n") + Unlines(after) == Around(before, v, after);
  }

  lemma LinesAround(before: seq<string>, v: Var, after: seq<string>)
    requires NoNewlines(before) && NoNewlines(after)
    ensures Lines(Around(before, v, after)) == StripAll(before) + (EntryLines(v) + StripAll(after))
  {
    LinesOfUnlines(before, Entry(v) + "\n" + Unlines(after));
    LinesConcat(Entry(v), Unlines(after));
    LinesOfUnlines(after, "");
    assert Unlines(after) + "" == Unlines(after) && StripAll(after) + Lines("") == StripAll(after);
  }

  lemma UpsertedOneLines(text: string, v: Var)
    ensures var before, after := Before(Lines(text), v.0 + "="), After(Lines(text), v.0 + "=");
            && UpsertedOne(text, v) == Around(before, v, after)
            && Lines(UpsertedOne(text, v)) == StripAll(before) + (EntryLines(v) + StripAll(after))
  {
    var before, after := Before(Lines(text), v.0 + "="), After(Lines(text), v.0 + "=");
    PlacedForm(Lines(text), v.0 + "=", Entry(v));
    UnlinesAround(before, v, after);
    PartsLack(text, v.0 + "=");
    LinesAround(before, v, after);
  }

  lemma StripKeepsPrefix(key: string, line: string)
    ensures key + "=" <= StripCr(line) <==> key + "=" <= line
  {
  }

  lemma {:induction false} StripKeepsLacks(key: string, lines: seq<string>)
    requires forall l | l in lines :: Lacks(key + "=")(l)
    ensures forall l | l in StripAll(lines) :: Lacks(key + "=")(l)
    decreases |lines|
  {
    if lines != [] {
      assert lines[0] in lines;
      StripKeepsPrefix(key, lines[0]);
      StripKeepsLacks(key, lines[1..]);
    }
  }

  /** For every text, key and value: the other lines are the old ones in order, and what the
      file says about the key is the entry alone. */
  lemma UpsertOneKeepsOtherLines(text: string, v: Var)
    ensures var prefix, lines := v.0 + "=", Lines(UpsertedOne(text, v));
            var before, after := Before(Lines(text), prefix), After(Lines(text), prefix);
            && Filter(Lacks(prefix), Lines(text)) == before + after
            && Filter(Lacks(prefix), lines) == StripAll(before) + (LeftoverOne(v) + StripAll(after))
            && Filter(StartsWith(prefix), lines) == Filter(StartsWith(prefix), EntryLines(v))
  {
    var prefix := v.0 + "=";
    var before, after := Before(Lines(text), prefix), After(Lines(text), prefix);
    PlacedForm(Lines(text), prefix, Entry(v));
    PartsLack(text, prefix);
    UpsertedOneLines(text, v);
    StripKeepsLacks(v.0, before);
    StripKeepsLacks(v.0, after);
    FilterAround(Lacks(prefix), StripAll(before), EntryLines(v), StripAll(after));
    FilterAround(StartsWith(prefix), StripAll(before), EntryLines(v), StripAll(after));
    FilterAll(Lacks(prefix), StripAll(before));
    FilterAll(Lacks(prefix), StripAll(after));
    FilterNone(StartsWith(prefix), StripAll(before));
    FilterNone(StartsWith(prefix), StripAll(after));
    assert [] + (Filter(StartsWith(prefix), EntryLines(v)) + []) == Filter(StartsWith(prefix), EntryLines(v));
  }

  lemma FilterAround(test: string -> bool, a: seq<string>, b: seq<string>, c: seq<string>)
    ensures Filter(test, a + (b + c)) == Filter(test, a) + (Filter(test, b) + Filter(test, c))
  {
    FilterConcat(test, a, b + c);
    FilterConcat(test, b, c);
  }

  lemma EntryHasNewline(v: Var)
    ensures '\n' in Entry(v) <==> '\n' in v.0 || '\n' in v.1
  {
    EscapedIsOnePass(v.1);
    EscapedHas(v.1, '\n');
  }

  lemma OneLineEntry(v: Var)
    requires '\n' !in Entry(v)
    ensures EntryLines(v) == [Entry(v)] && LeftoverOne(v) == []
    ensures Filter(StartsWith(v.0 + "="), EntryLines(v)) == [Entry(v)]
  {
    var prefix := v.0 + "=";
    FirstLine(Entry(v), "");
    assert Entry(v) + "\n" + "" == Entry(v) + "\n";
    assert prefix <= Entry(v);
    FilterNone(Lacks(prefix), [Entry(v)]);
    FilterAll(StartsWith(prefix), [Entry(v)]);
  }

  lemma ManyLineEntry(v: Var, test: string -> bool)
    requires '\n' in Entry(v)
    ensures Filter(test, EntryLines(v)) != [Entry(v)]
  {
    LinesHaveNoNewline(Entry(v) + "\n");
    FilterIsSubset(test, EntryLines(v));
    assert Entry(v) !in Filter(test, EntryLines(v));
    assert Entry(v) in [Entry(v)];
  }

  /** Afterwards exactly one line starts with `key=` and it is the written one, however many
      there were, exactly when key and value have no newline; and then none is left over. */
  lemma UpsertOneWritesOnceExactly(text: string, v: Var)
    ensures Filter(StartsWith(v.0 + "="), Lines(UpsertedOne(text, v))) == [Entry(v)] <==>
            '\n' !in v.0 && '\n' !in v.1
    ensures '\n' !in v.0 && '\n' !in v.1 ==> LeftoverOne(v) == []
  {
    UpsertOneKeepsOtherLines(text, v);
    EntryHasNewline(v);
    if '\n' !in Entry(v) { OneLineEntry(v); } else { ManyLineEntry(v, StartsWith(v.0 + "=")); }
  }

  // ---------- Doing the single upsert twice ----------

  lemma {:induction false} PlacedAfter(a: seq<string>, b: seq<string>, prefix: string, entry: string)
    requires forall l | l in a :: Lacks(prefix)(l)
    ensures Placed(a + b, prefix, entry) == a + Placed(b, prefix, entry)
  {
    if a == [] {
      assert a + b == b && a + Placed(b, prefix, entry) == Placed(b, prefix, entry);
    } else {
      assert a[0] in a && (a + b)[1..] == a[1..] + b;
      PlacedAfter(a[1..], b, prefix, entry);
      ConcatCons(a[0], a[1..], Placed(b, prefix, entry));
    }
  }

  /** A key without a newline is found in the first line of its entry. */
  lemma EntryStartsWithKey(v: Var)
    requires '\n' !in v.0
    ensures EntryLines(v) != [] && v.0 + "=" <= EntryLines(v)[0]
  {
    var text, prefix := Entry(v) + "\n", v.0 + "=";
    var rest := text[|prefix|..];
    assert text == prefix + rest && rest[|rest| - 1] == '\n';
    IndexSkips(prefix, '\n', rest);
    var n := IndexOf(text, '\n');
    assert prefix <= text[..n];
    StripKeepsPrefix(v.0, text[..n]);
  }

  lemma {:induction false} IndexSkips(a: string, c: char, b: string)
    requires c !in a && c in b
    ensures |a| <= IndexOf(a + b, c) < |a + b|
  {
    if a != [] {
      assert (a + b)[1..] == a[1..] + b;
      IndexSkips(a[1..], c, b);
    } else {
      assert a + b == b;
      IndexIsFirst(b, c);
      assert b[..|b|] == b;
    }
  }

  /** The second upsert, when the first one's entry is found again. */
  lemma PlacedAgain(before: seq<string>, v: Var, after: seq<string>)
    requires '\n' !in v.0
    requires (forall l | l in before :: Lacks(v.0 + "=")(l)) && (forall l | l in after :: Lacks(v.0 + "=")(l))
    ensures Placed(before + (EntryLines(v) + after), v.0 + "=", Entry(v)) ==
            before + [Entry(v)] + (LeftoverOne(v) + after)
  {
    var prefix, lines := v.0 + "=", EntryLines(v);
    EntryStartsWithKey(v);
    PlacedAfter(before, lines + after, prefix, Entry(v));
    assert (lines + after)[0] == lines[0] && (lines + after)[1..] == lines[1..] + after;
    FilterConcat(Lacks(prefix), lines[1..], after);
    FilterAll(Lacks(prefix), after);
    assert LeftoverOne(v) == Filter(Lacks(prefix), lines[1..]);
    assert before + ([Entry(v)] + (LeftoverOne(v) + after)) == before + [Entry(v)] + (LeftoverOne(v) + after);
  }

  lemma {:induction false} SameText(a: seq<string>, b: seq<string>)
    requires NoNewlines(a) && NoNewlines(b) && Unlines(a) == Unlines(b)
    ensures a == b
    decreases |a|
  {
    if a != [] && b != [] {
      var x, y := Unlines(a[1..]), Unlines(b[1..]);
      assert a[0] in a && b[0] in b;
      IndexAtEnd(a[0], '\n', x);
      IndexAtEnd(b[0], '\n', y);
      var text := a[0] + "\n" + x;
      assert text[..|a[0]|] == a[0] && text[..|b[0]|] == b[0];
      assert text[|a[0]| + 1..] == x && text[|b[0]| + 1..] == y;
      SameText(a[1..], b[1..]);
    }
  }

  lemma {:induction false} StripNoNewlines(lines: seq<string>)
    requires NoNewlines(lines)
    ensures NoNewlines(StripAll(lines))
  {
    if lines != [] {
      assert lines[0] in lines;
      StripNoNewlines(lines[1..]);
    }
  }

  /** The two texts around the entry agree only if nothing was stripped and nothing left over. */
  lemma AroundSame(before: seq<string>, v: Var, extra: seq<string>, after: seq<string>)
    requires NoNewlines(extra) && NoNewlines(after)
    requires Around(StripAll(before), v, extra + StripAll(after)) == Around(before, v, after)
    ensures NoCr(before) && NoCr(after) && extra == []
  {
    var e, x, y := Entry(v) + "\n", Unlines(extra + StripAll(after)), Unlines(after);
    SameTextOnlyIfUnstripped(before, e + x, e + y);
    SameTail(e, x, y);
    StripNoNewlines(after);
    SameText(extra + StripAll(after), after);
    StripLength(after);
    assert StripAll(after) == after;
    SameTextOnlyIfUnstripped(after, "", "");
  }

  lemma {:induction false} StripLength(lines: seq<string>)
    ensures |StripAll(lines)| == |lines|
  {
    if lines != [] { StripLength(lines[1..]); }
  }

  lemma UpsertOneTwice(text: string, v: Var)
    requires '\n' !in v.0
    ensures var before, after := Before(Lines(text), v.0 + "="), After(Lines(text), v.0 + "=");
            UpsertedOne(UpsertedOne(text, v), v) == Around(StripAll(before), v, LeftoverOne(v) + StripAll(after))
  {
    var before, after := Before(Lines(text), v.0 + "="), After(Lines(text), v.0 + "=");
    PartsLack(text, v.0 + "=");
    UpsertedOneLines(text, v);
    StripKeepsLacks(v.0, before);
    StripKeepsLacks(v.0, after);
    PlacedAgain(StripAll(before), v, StripAll(after));
    UnlinesAround(StripAll(before), v, LeftoverOne(v) + StripAll(after));
  }

  lemma OneLineKeyExactly(text: string, v: Var)
    requires '\n' !in v.0
    ensures UpsertedOne(UpsertedOne(text, v), v) == UpsertedOne(text, v) <==>
            NoCr(Filter(Lacks(v.0 + "="), Lines(text))) && LeftoverOne(v) == []
  {
    var prefix := v.0 + "=";
    var before, after, extra := Before(Lines(text), prefix), After(Lines(text), prefix), LeftoverOne(v);
    PlacedForm(Lines(text), prefix, Entry(v));
    PartsLack(text, prefix);
    UpsertedOneLines(text, v);
    UpsertOneTwice(text, v);
    LinesHaveNoNewline(Entry(v) + "\n");
    FilterIsSubset(Lacks(prefix), EntryLines(v));
    assert NoCr(before + after) <==> NoCr(before) && NoCr(after) by {
      assert forall l :: l in before + after <==> l in before || l in after;
    }
    if NoCr(before) && NoCr(after) && extra == [] {
      NoCrStrip(before);
      NoCrStrip(after);
      assert [] + after == after;
    } else if Around(StripAll(before), v, extra + StripAll(after)) == Around(before, v, after) {
      AroundSame(before, v, extra, after);
    }
  }

  /** A key with a newline is never found again, so every upsert adds an entry. */
  lemma ManyLineKeyGrows(text: string, v: Var)
    requires '\n' in v.0
    ensures UpsertedOne(UpsertedOne(text, v), v) != UpsertedOne(text, v) && LeftoverOne(v) != []
  {
    NeverFound(text, v);
    NeverFound(UpsertedOne(text, v), v);
    FoundNowhere(Entry(v) + "\n", v.0);
    var kept, rest := Lines(text), Entry(v) + "\n";
    LinesHaveNoNewline(text);
    LinesOfUnlines(kept, rest);
    UnlinesConcat(StripAll(kept), EntryLines(v));
    ConcatThree(Unlines(StripAll(kept)), Unlines(EntryLines(v)), rest);
    EntryIsNotEmpty(v);
    TextsAgreeExactly(kept, EntryLines(v), rest);
  }

  lemma EntryIsNotEmpty(v: Var)
    ensures EntryLines(v) != []
  {
    assert Entry(v) + "\n" != [];
  }

  /** No line starts with a text that has a newline. */
  lemma FoundNowhere(text: string, key: string)
    requires '\n' in key
    ensures Filter(Lacks(key + "="), Lines(text)) == Lines(text)
  {
    LinesHaveNoNewline(text);
    forall l | l in Lines(text) ensures Lacks(key + "=")(l) {
      if key + "=" <= l { PrefixMember(key + "=", l, '\n'); }
    }
    FilterAll(Lacks(key + "="), Lines(text));
  }

  lemma PrefixMember(a: string, l: string, c: char)
    requires a <= l && c in a
    ensures c in l
  {
    var i :| 0 <= i < |a| && a[i] == c;
    assert l[i] == c;
  }

  lemma NeverFound(text: string, v: Var)
    requires '\n' in v.0
    ensures UpsertedOne(text, v) == Unlines(Lines(text)) + (Entry(v) + "\n")
  {
    var lines, prefix := Lines(text), v.0 + "=";
    FoundNowhere(text, v.0);
    FilterIsSubset(Lacks(prefix), lines);
    assert lines + [] == lines;
    PlacedAfter(lines, [], prefix, Entry(v));
    UnlinesConcat(lines, [Entry(v)]);
  }

  /** For every text, key and value: the single upsert is idempotent exactly when no line it
      keeps ends in `\r` and every line written is one the key would replace. */
  lemma UpsertOneIdempotentExactly(text: string, v: Var)
    ensures UpsertedOne(UpsertedOne(text, v), v) == UpsertedOne(text, v) <==>
            NoCr(Filter(Lacks(v.0 + "="), Lines(text))) && LeftoverOne(v) == []
  {
    if '\n' in v.0 { ManyLineKeyGrows(text, v); } else { OneLineKeyExactly(text, v); }
  }

  // ---------- The two forms compared ----------

  lemma PrefixGivesKey(key: string, line: string)
    requires '=' !in key && Trim(key) == key && key + "=" <= line
    ensures KeyOf(line) == Some(key)
  {
    var rest := line[|key| + 1..];
    assert line == key + ['='] + rest;
    IndexAtEnd(key, '=', rest);
    assert line[..|key|] == key;
  }

  lemma {:induction false} FiltersAgree(p: string -> bool, q: string -> bool, lines: seq<string>)
    requires forall l | l in lines :: q(l) ==> p(l)
    ensures |Filter(q, lines)| <= |Filter(p, lines)|
    ensures |Filter(q, lines)| == |Filter(p, lines)| <==> forall l | l in lines :: p(l) ==> q(l)
    ensures (forall l | l in lines :: p(l) ==> q(l)) ==> Filter(p, lines) == Filter(q, lines)
    decreases |lines|
  {
    if lines != [] {
      FiltersAgree(p, q, lines[1..]);
      assert lines == [lines[0]] + lines[1..];
    }
  }

  /** The single and the batch form keep the same other lines exactly when every line for
      the key starts with `key=`: the batch form also drops lines with white space around
      the key, which the single form keeps beside its own. */
  lemma FormsAgreeExactly(text: string, key: string)
    requires '=' !in key && Trim(key) == key
    ensures Filter(Lacks(key + "="), Lines(text)) == Filter(Untouched({key}), Lines(text)) <==>
            forall l | l in Lines(text) :: KeyOf(l) == Some(key) ==> key + "=" <= l
  {
    var lines := Lines(text);
    forall l | l in lines && key + "=" <= l ensures KeyOf(l) == Some(key) { PrefixGivesKey(key, l); }
    FiltersAgree(Lacks(key + "="), Untouched({key}), lines);
    if Filter(Lacks(key + "="), lines) == Filter(Untouched({key}), lines) {
      forall l | l in lines && KeyOf(l) == Some(key) ensures key + "=" <= l {
        assert !Untouched({key})(l);
      }
    }
  }
}
