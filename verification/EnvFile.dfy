/** The env-file printer and parser, and exactly which entries survive a trip through the file. */
module EnvFile {
  import opened Collections

  type Env = map<string, string>

  // ----------------------------------------------------------------------- strings

  /** What the language's own `trim` takes off. */
  predicate White(c: char) {
    var n := c as int;
    || 9 <= n <= 13 || n == 32 || n == 160 || n == 0x1680 || 0x2000 <= n <= 0x200A
    || n == 0x2028 || n == 0x2029 || n == 0x202F || n == 0x205F || n == 0x3000 || n == 0xFEFF
  }

  function TrimEnd(s: string): string {
    if s != "" && White(s[|s| - 1]) then TrimEnd(s[..|s| - 1]) else s
  }

  function TrimStart(s: string): string {
    if s != "" && White(s[0]) then TrimStart(s[1..]) else s
  }

  function Trim(s: string): string {
    TrimStart(TrimEnd(s))
  }

  predicate Quoted(s: string) {
    s != "" && s[0] == s[|s| - 1] && (s[0] == '"' || s[0] == '\'')
  }

  /** Both quotes go; a lone quote counts as both. */
  function StripWrappingQuotes(s: string): string {
    if !Quoted(s) then s else if |s| < 2 then "" else s[1..|s| - 1]
  }

  function IndexOf(s: string, c: char): (i: nat)
    ensures i <= |s| && (i < |s| ==> s[i] == c) && c !in s[..i]
  {
    if s == "" || s[0] == c then 0 else 1 + IndexOf(s[1..], c)
  }

  function Chomp(line: string): string {
    if line != "" && line[|line| - 1] == '\r' then line[..|line| - 1] else line
  }

  /** Lines end in a newline, with or without a carriage return before it. */
  function SplitLines(text: string): seq<string>
    decreases |text|
  {
    var i := IndexOf(text, '\n');
    if i < |text| then [Chomp(text[..i])] + SplitLines(text[i + 1..]) else [text]
  }

  // ----------------------------------------------------------------- parsing and printing

  datatype Pair = Pair(key: string, value: string)

  /** Blank lines, comments and lines without a key carry nothing. */
  function ParseLine(raw: string): Option<Pair> {
    var line := Trim(raw);
    if line == "" || line[0] == '#' then None
    else
      var separator := IndexOf(line, '=');
      if separator == 0 || separator == |line| then None
      else Some(Pair(Trim(line[..separator]), StripWrappingQuotes(Trim(line[separator + 1..]))))
  }

  /** Assigning to `__proto__` creates no entry. */
  function Put(env: Env, key: string, value: string): Env {
    if key == "__proto__" then env else env[key := value]
  }

  function ParseLines(lines: seq<string>): Env {
    if lines == [] then map[] else
      var env := ParseLines(lines[..|lines| - 1]);
      var p := ParseLine(lines[|lines| - 1]);
      if p.Some? then Put(env, p.value.key, p.value.value) else env
  }

  method ParseEnvText(text: string) returns (result: Env)
    ensures result == ParseLines(SplitLines(text))
  {
    result := map[];
    var lines := SplitLines(text);
    var i := 0;
    while i < |lines|
      invariant 0 <= i <= |lines|
      invariant result == ParseLines(lines[..i])
    {
      assert lines[..i + 1][..i] == lines[..i];
      var line := Trim(lines[i]);
      i := i + 1;
      if line == "" || line[0] == '#' {
        continue;
      }
      var separator := IndexOf(line, '=');
      if separator == 0 || separator == |line| {
        continue;
      }
      var key := Trim(line[..separator]);
      var value := StripWrappingQuotes(Trim(line[separator + 1..]));
      result := Put(result, key, value);
    }
    assert lines[..|lines|] == lines;
  }

  function Line(env: Env, key: string): string
    requires key in env
  {
    key + "=" + env[key]
  }

  /** A printing order: every key once. Which one the locale picks does not matter. */
  ghost predicate Lists(order: seq<string>, env: Env) {
    NoDuplicates(order) && forall k :: k in order <==> k in env
  }

  function PrintedLines(env: Env, order: seq<string>): seq<string>
    requires forall k :: k in order ==> k in env
  {
    seq(|order|, i requires 0 <= i < |order| => Line(env, order[i]))
  }

  function Join(lines: seq<string>): string {
    if lines == [] then "" else if |lines| == 1 then lines[0] else lines[0] + "\n" + Join(lines[1..])
  }

  function FormatEnvFile(env: Env, order: seq<string>): string
    requires forall k :: k in order ==> k in env
  {
    Join(PrintedLines(env, order)) + "\n"
  }

  // ------------------------------------------------------------------- what survives

  predicate CleanEdges(s: string) {
    s != "" ==> !White(s[0]) && !White(s[|s| - 1])
  }

  predicate GoodKey(k: string) {
    k != "" && k[0] != '#' && '=' !in k && '\n' !in k && k != "__proto__" && CleanEdges(k)
  }

  predicate SingleLine(v: string) {
    '\n' !in v
  }

  predicate GoodValue(v: string) {
    SingleLine(v) && CleanEdges(v) && !Quoted(v)
  }

  /** What comes back of a value: trimmed, one pair of quotes gone. */
  function Cleaned(v: string): string {
    StripWrappingQuotes(Trim(v))
  }

  lemma {:induction false} TrimEndShape(s: string)
    ensures TrimEnd(s) <= s && (TrimEnd(s) != "" ==> !White(TrimEnd(s)[|TrimEnd(s)| - 1]))
    ensures s != "" && White(s[|s| - 1]) ==> |TrimEnd(s)| < |s|
    decreases |s|
  {
    if s != "" && White(s[|s| - 1]) {
      TrimEndShape(s[..|s| - 1]);
    }
  }

  lemma {:induction false} TrimStartShape(s: string)
    ensures |TrimStart(s)| <= |s| && TrimStart(s) == s[|s| - |TrimStart(s)|..]
    ensures TrimStart(s) != "" ==> !White(TrimStart(s)[0]) && TrimStart(s)[|TrimStart(s)| - 1] == s[|s| - 1]
    ensures s != "" && White(s[0]) ==> |TrimStart(s)| < |s|
    decreases |s|
  {
    if s != "" && White(s[0]) {
      TrimStartShape(s[1..]);
    }
  }

  /** Trimming yields clean edges, keeps clean strings, and adds no characters. */
  lemma TrimShape(s: string)
    ensures CleanEdges(Trim(s)) && (Trim(s) == s <==> CleanEdges(s)) && (forall c :: c in Trim(s) ==> c in s)
    ensures |Trim(s)| <= |s|
  {
    TrimEndShape(s);
    TrimStartShape(TrimEnd(s));
  }

  /** A value comes back unchanged exactly when its edges are clean and it is not in quotes. */
  lemma CleanedExactlyWhen(v: string)
    ensures Cleaned(v) == v <==> CleanEdges(v) && !Quoted(v)
  {
    TrimShape(v);
    assert |Cleaned(v)| <= |Trim(v)|;
    if Cleaned(v) == v {
      TrimEndShape(v);
      TrimStartShape(TrimEnd(v));
      assert Trim(v) == v;
    }
  }

  lemma TrimChomp(line: string)
    ensures Trim(Chomp(line)) == Trim(line)
  {
  }

  lemma {:induction false} TrimEndAfter(a: string, v: string)
    requires a != "" && !White(a[|a| - 1])
    ensures TrimEnd(a + v) == a + TrimEnd(v)
    decreases |v|
  {
    if v == "" {
      assert a + v == a;
    } else {
      assert (a + v)[..|a + v| - 1] == a + v[..|v| - 1];
      if White(v[|v| - 1]) {
        TrimEndAfter(a, v[..|v| - 1]);
      }
    }
  }

  lemma {:induction false} IndexOfAfter(k: string, c: char, rest: string)
    requires c !in k
    ensures IndexOf(k + [c] + rest, c) == |k|
    decreases |k|
  {
    if k != "" {
      assert (k + [c] + rest)[1..] == k[1..] + [c] + rest;
      IndexOfAfter(k[1..], c, rest);
    }
  }

  /** A printed line reads back as its entry, the value cleaned. */
  lemma LineReadsBack(k: string, v: string)
    requires GoodKey(k)
    ensures ParseLine(k + "=" + v) == Some(Pair(k, Cleaned(v)))
  {
    TrimEndAfter(k + "=", v);
    assert TrimStart(k + "=" + TrimEnd(v)) == k + "=" + TrimEnd(v);
    IndexOfAfter(k, '=', TrimEnd(v));
    var line := Trim(k + "=" + v);
    assert line == k + "=" + TrimEnd(v);
    assert line[..|k|] == k && line[|k| + 1..] == TrimEnd(v);
    TrimShape(k);
    TrimEndShape(v);
    TrimEndShape(TrimEnd(v));
    assert TrimEnd(TrimEnd(v)) == TrimEnd(v);
  }

  lemma SplitFirst(line: string, rest: string)
    requires '\n' !in line
    ensures SplitLines(line + "\n" + rest) == [Chomp(line)] + SplitLines(rest)
  {
    IndexOfAfter(line, '\n', rest);
    var text := line + "\n" + rest;
    assert text[..|line|] == line && text[|line| + 1..] == rest;
  }

  function ChompAll(lines: seq<string>): seq<string> {
    seq(|lines|, i requires 0 <= i < |lines| => Chomp(lines[i]))
  }

  lemma {:induction false} SplitJoined(lines: seq<string>)
    requires lines != [] && forall i :: 0 <= i < |lines| ==> '\n' !in lines[i]
    ensures SplitLines(Join(lines) + "\n") == ChompAll(lines) + [""]
    decreases |lines|
  {
    var rest := lines[1..];
    assert ChompAll(lines) == [Chomp(lines[0])] + ChompAll(rest);
    if rest == [] {
      SplitFirst(lines[0], "");
      assert lines[0] + "\n" + "" == Join(lines) + "\n";
    } else {
      SplitFirst(lines[0], Join(rest) + "\n");
      assert lines[0] + "\n" + (Join(rest) + "\n") == Join(lines) + "\n";
      SplitJoined(rest);
    }
  }

  lemma PrintedLine(env: Env, k: string)
    requires k in env && GoodKey(k)
    ensures ParseLine(Chomp(Line(env, k))) == Some(Pair(k, Cleaned(env[k])))
  {
    TrimChomp(Line(env, k));
    LineReadsBack(k, env[k]);
    assert ParseLine(Chomp(Line(env, k))) == ParseLine(Line(env, k));
  }

  /** The entries of a printed file, line by line. */
  lemma {:induction false} PrintedParses(env: Env, order: seq<string>, lines: seq<string>)
    requires NoDuplicates(order) && forall k :: k in order ==> k in env && GoodKey(k)
    requires |lines| == |order| && forall i :: 0 <= i < |order| ==> lines[i] == Chomp(Line(env, order[i]))
    ensures var r := ParseLines(lines);
            (forall k :: k in r <==> k in order) && forall k :: k in order ==> r[k] == Cleaned(env[k])
    decreases |order|
  {
    if order != [] {
      var init, k := order[..|order| - 1], order[|order| - 1];
      assert order == init + [k] && k in order;
      PrintedParses(env, init, lines[..|lines| - 1]);
      PrintedLine(env, k);
      assert lines[|lines| - 1] == Chomp(Line(env, k));
    }
  }

  function CleanedAll(env: Env): Env {
    map k | k in env :: Cleaned(env[k])
  }

  /** Every line of the printed file will be one entry. */
  ghost predicate Readable(env: Env) {
    forall k :: k in env ==> GoodKey(k) && SingleLine(env[k])
  }

  lemma SplitPrinted(env: Env, order: seq<string>)
    requires order != [] && Readable(env) && forall k :: k in order ==> k in env
    ensures SplitLines(FormatEnvFile(env, order)) == ChompAll(PrintedLines(env, order)) + [""]
  {
    var lines := PrintedLines(env, order);
    forall i | 0 <= i < |lines| ensures '\n' !in lines[i] {
      assert order[i] in order;
    }
    SplitJoined(lines);
  }

  lemma TrailingBlank(lines: seq<string>)
    ensures ParseLines(lines + [""]) == ParseLines(lines)
  {
  }

  lemma EmptyFile()
    ensures ParseLines(SplitLines("\n")) == map[]
  {
  }

  /** With good keys and single-line values, printing and parsing cleans each value and changes nothing else. */
  lemma PrintThenParse(env: Env, order: seq<string>)
    requires Lists(order, env) && Readable(env)
    ensures ParseLines(SplitLines(FormatEnvFile(env, order))) == CleanedAll(env)
  {
    if order == [] {
      EmptyFile();
      assert FormatEnvFile(env, order) == "\n";
    } else {
      SplitPrinted(env, order);
      TrailingBlank(ChompAll(PrintedLines(env, order)));
      PrintedIsRead(env, order);
    }
  }

  lemma PrintedIsRead(env: Env, order: seq<string>)
    requires Lists(order, env) && Readable(env)
    ensures ParseLines(ChompAll(PrintedLines(env, order))) == CleanedAll(env)
  {
    PrintedParses(env, order, ChompAll(PrintedLines(env, order)));
    var r := ParseLines(ChompAll(PrintedLines(env, order)));
    assert r.Keys == CleanedAll(env).Keys;
  }

  // ------------------------------------------------------------- the exact condition

  lemma {:induction false} LinesAreSingle(text: string)
    ensures forall line :: line in SplitLines(text) ==> '\n' !in line
    decreases |text|
  {
    var i := IndexOf(text, '\n');
    if i < |text| {
      LinesAreSingle(text[i + 1..]);
      assert '\n' !in text[..i] && '\n' !in Chomp(text[..i]);
      assert SplitLines(text) == [Chomp(text[..i])] + SplitLines(text[i + 1..]);
    } else {
      assert text[..i] == text;
    }
  }

  lemma CleaningAddsNothing(v: string, c: char)
    requires c !in v
    ensures c !in StripWrappingQuotes(Trim(v))
  {
    TrimShape(v);
  }

  lemma KeyPartIsGood(part: string)
    requires part != "" && !White(part[0]) && part[0] != '#' && '=' !in part && '\n' !in part
    ensures Trim(part) == "__proto__" || GoodKey(Trim(part))
  {
    TrimShape(part);
    TrimEndKeepsStart(part);
  }

  /** Whatever the line, the key it yields is good and the value single-line. */
  lemma ParsedLineIsGood(raw: string)
    requires '\n' !in raw
    ensures var p := ParseLine(raw);
            p.Some? && p.value.key != "__proto__" ==> GoodKey(p.value.key) && SingleLine(p.value.value)
  {
    var line := Trim(raw);
    TrimShape(raw);
    var separator := IndexOf(line, '=');
    if line != "" && line[0] != '#' && separator != 0 && separator != |line| {
      KeyPartIsGood(line[..separator]);
      CleaningAddsNothing(line[separator + 1..], '\n');
    }
  }

  lemma {:induction false} TrimEndKeepsStart(s: string)
    requires s != "" && !White(s[0])
    ensures Trim(s) != "" && Trim(s)[0] == s[0]
    decreases |s|
  {
    if White(s[|s| - 1]) {
      TrimEndKeepsStart(s[..|s| - 1]);
    }
  }

  lemma {:induction false} ParsedIsGood(lines: seq<string>)
    requires forall line :: line in lines ==> '\n' !in line
    ensures Readable(ParseLines(lines))
    decreases |lines|
  {
    if lines != [] {
      assert lines[|lines| - 1] in lines;
      ParsedIsGood(lines[..|lines| - 1]);
      ParsedLineIsGood(lines[|lines| - 1]);
    }
  }

  /**
   The round trip, exactly: parsing the printed file returns the same map if and only if every
   key and every value is good. In particular no bad entry is ever masked by another one.
   */
  lemma RoundTripsExactlyWhen(env: Env, order: seq<string>)
    requires Lists(order, env)
    ensures ParseLines(SplitLines(FormatEnvFile(env, order))) == env <==> forall k :: k in env ==> GoodKey(k) && GoodValue(env[k])
  {
    var text := FormatEnvFile(env, order);
    LinesAreSingle(text);
    ParsedIsGood(SplitLines(text));
    if Readable(env) {
      PrintThenParse(env, order);
      forall k | k in env ensures CleanedAll(env)[k] == env[k] <==> GoodValue(env[k]) {
        CleanedExactlyWhen(env[k]);
      }
    }
  }

  // ----------------------------------------------------------------------- updating

  /** An undefined value is skipped, null removes only when asked to. */
  datatype Update = Undefined(key: string) | Null(key: string) | Set(key: string, value: string)

  function Updated(env: Env, updates: seq<Update>, removeNull: bool): Env {
    if updates == [] then env else
      var before := Updated(env, updates[..|updates| - 1], removeNull);
      match updates[|updates| - 1]
      case Undefined(_) => before
      case Null(key) => if removeNull then before - {key} else before
      case Set(key, value) => Put(before, key, value)
  }

  /** This update says something about the key: a value for it, or its removal where nulls remove. */
  predicate Touches(u: Update, key: string, removeNull: bool) {
    u.key == key && ((u.Set? && key != "__proto__") || (u.Null? && removeNull))
  }

  ghost predicate LastTouch(updates: seq<Update>, key: string, removeNull: bool, k: nat) {
    k < |updates| && Touches(updates[k], key, removeNull) && forall j :: k < j < |updates| ==> !Touches(updates[j], key, removeNull)
  }

  lemma OneMoreUpdate(env: Env, updates: seq<Update>, removeNull: bool, key: string)
    requires updates != []
    ensures var last, before, next := updates[|updates| - 1], Updated(env, updates[..|updates| - 1], removeNull), Updated(env, updates, removeNull);
            if !Touches(last, key, removeNull) then (key in next <==> key in before) && (key in before ==> next[key] == before[key])
            else if last.Set? then key in next && next[key] == last.value else key !in next
  {
  }

  /** The last update about a key decides: its value is there, or it is gone. */
  lemma {:induction false} LastUpdateDecides(env: Env, updates: seq<Update>, removeNull: bool, key: string, k: nat)
    requires LastTouch(updates, key, removeNull, k)
    ensures var next := Updated(env, updates, removeNull);
            if updates[k].Set? then key in next && next[key] == updates[k].value else key !in next
    decreases |updates|
  {
    OneMoreUpdate(env, updates, removeNull, key);
    if k < |updates| - 1 {
      LastUpdateDecides(env, updates[..|updates| - 1], removeNull, key, k);
    }
  }

  /** A key no update is about keeps what it had. */
  lemma {:induction false} UntouchedStays(env: Env, updates: seq<Update>, removeNull: bool, key: string)
    requires forall u :: u in updates ==> !Touches(u, key, removeNull)
    ensures var next := Updated(env, updates, removeNull); (key in next <==> key in env) && (key in env ==> next[key] == env[key])
    decreases |updates|
  {
    if updates != [] {
      OneMoreUpdate(env, updates, removeNull, key);
      assert updates[|updates| - 1] in updates;
      UntouchedStays(env, updates[..|updates| - 1], removeNull, key);
    }
  }

  /** Some order of the keys; the locale's is one of them. */
  method KeyOrder(env: Env) returns (order: seq<string>)
    ensures Lists(order, env)
  {
    order := [];
    var rest := env.Keys;
    while rest != {}
      invariant NoDuplicates(order) && rest <= env.Keys
      invariant forall k :: k in order <==> k in env && k !in rest
      decreases |rest|
    {
      var k :| k in rest;
      order, rest := order + [k], rest - {k};
    }
  }

  /** Reads the file, applies the updates one by one, and prints the result. */
  method UpdateEnvFile(text: string, updates: seq<Update>, removeNull: bool) returns (next: Env, order: seq<string>, written: string)
    ensures next == Updated(ParseLines(SplitLines(text)), updates, removeNull)
    ensures Lists(order, next) && written == FormatEnvFile(next, order)
  {
    var current := ParseEnvText(text);
    next := current;
    var i := 0;
    while i < |updates|
      invariant 0 <= i <= |updates|
      invariant next == Updated(current, updates[..i], removeNull)
    {
      assert updates[..i + 1][..i] == updates[..i];
      match updates[i] {
        case Undefined(_) =>
        case Null(key) =>
          if removeNull {
            next := next - {key};
          }
        case Set(key, value) => next := Put(next, key, value);
      }
      i := i + 1;
    }
    assert updates[..|updates|] == updates;
    order := KeyOrder(next);
    written := FormatEnvFile(next, order);
  }

  /** Updates with good keys and single-line values keep a file readable whatever it held: each entry reads back cleaned. */
  lemma {:induction false} UpdatedStaysReadable(env: Env, updates: seq<Update>, removeNull: bool)
    requires Readable(env)
    requires forall u :: u in updates && u.Set? ==> GoodKey(u.key) && SingleLine(u.value)
    ensures Readable(Updated(env, updates, removeNull))
    decreases |updates|
  {
    if updates != [] {
      assert updates[|updates| - 1] in updates;
      UpdatedStaysReadable(env, updates[..|updates| - 1], removeNull);
    }
  }

  lemma {:induction false} UpdateReadsBack(text: string, updates: seq<Update>, removeNull: bool, order: seq<string>)
    requires forall u :: u in updates && u.Set? ==> GoodKey(u.key) && SingleLine(u.value)
    requires Lists(order, Updated(ParseLines(SplitLines(text)), updates, removeNull))
    ensures var next := Updated(ParseLines(SplitLines(text)), updates, removeNull);
            ParseLines(SplitLines(FormatEnvFile(next, order))) == CleanedAll(next)
  {
    LinesAreSingle(text);
    ParsedIsGood(SplitLines(text));
    UpdatedStaysReadable(ParseLines(SplitLines(text)), updates, removeNull);
    PrintThenParse(Updated(ParseLines(SplitLines(text)), updates, removeNull), order);
  }
}
