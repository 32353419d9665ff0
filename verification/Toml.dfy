/** The printer of TOML inline tables, and a reader for them after TOML v1.0.0. */
module Toml {
  import opened Wrappers

  type Table = seq<(string, string)>

  // ---- The printer ----

  /** Every occurrence of one character replaced by a text. */
  function Replace(s: string, c: char, subst: string): string {
    if s == "" then "" else (if s[0] == c then subst else [s[0]]) + Replace(s[1..], c, subst)
  }

  function Escape(s: string): string {
    Replace(Replace(s, '\\', "\\\\"), '"', "\\\"")
  }

  function Item(key: string, value: string): string {
    "\"" + Escape(key) + "\" = \"" + Escape(value) + "\""
  }

  /** The items with `", "` between them. */
  function Items(m: Table): string {
    if m == [] then "" else if |m| == 1 then Item(m[0].0, m[0].1) else Item(m[0].0, m[0].1) + ", " + Items(m[1..])
  }

  function InlineTable(m: Table): string {
    "{ " + Items(m) + " }"
  }

  // ---- The reader ----

  /** What a basic string may not hold unescaped: control characters other than the tab. */
  predicate Control(c: char) {
    (c < ' ' && c != '\t') || c == '\U{7F}'
  }

  function HexDigit(c: char): Option<nat> {
    if '0' <= c <= '9' then Some(c as int - '0' as int)
    else if 'a' <= c <= 'f' then Some(c as int - 'a' as int + 10)
    else if 'A' <= c <= 'F' then Some(c as int - 'A' as int + 10)
    else None
  }

  /** The number a run of hexadecimal digits denotes. */
  function Hex(s: string): Option<nat> {
    if s == "" then Some(0) else
      var high, low := Hex(s[..|s| - 1]), HexDigit(s[|s| - 1]);
      if high.None? || low.None? then None else Some(16 * high.value + low.value)
  }

  /** A Unicode scalar value. */
  function Scalar(n: nat): Option<char> {
    if n < 0xD800 || 0xE000 <= n < 0x11_0000 then Some(n as char) else None
  }

  /** The character an escape denotes, and how much follows the backslash. */
  function Escaped(s: string): Option<(char, nat)> {
    if s == "" then None
    else if s[0] == '"' || s[0] == '\\' then Some((s[0], 1))
    else if s[0] == 'b' then Some(('\U{8}', 1))
    else if s[0] == 't' then Some(('\t', 1))
    else if s[0] == 'n' then Some(('\n', 1))
    else if s[0] == 'f' then Some(('\U{C}', 1))
    else if s[0] == 'r' then Some(('\r', 1))
    else
      var digits := if s[0] == 'u' then 4 else if s[0] == 'U' then 8 else 0;
      if digits == 0 || |s| <= digits || Hex(s[1..digits + 1]).None? then None
      else if Scalar(Hex(s[1..digits + 1]).value).None? then None
      else Some((Scalar(Hex(s[1..digits + 1]).value).value, digits + 1))
  }

  /** The rest of a basic string after its opening quote, and what follows its closing quote. */
  function ReadString(s: string): (r: Option<(string, string)>)
    ensures r.Some? ==> |r.value.1| < |s|
    decreases |s|
  {
    if s == "" then None
    else if s[0] == '"' then Some(("", s[1..]))
    else if s[0] == '\\' then
      var e := Escaped(s[1..]);
      if e.None? || |s| < 1 + e.value.1 || e.value.1 == 0 then None else
        var tail := ReadString(s[1 + e.value.1..]);
        if tail.None? then None else Some(([e.value.0] + tail.value.0, tail.value.1))
    else if Control(s[0]) then None
    else
      var tail := ReadString(s[1..]);
      if tail.None? then None else Some(([s[0]] + tail.value.0, tail.value.1))
  }

  function SkipSpace(s: string): (r: string)
    ensures |r| <= |s|
  {
    if s != "" && (s[0] == ' ' || s[0] == '\t') then SkipSpace(s[1..]) else s
  }

  function ReadQuoted(s: string): (r: Option<(string, string)>)
    ensures r.Some? ==> |r.value.1| < |s|
  {
    if s == "" || s[0] != '"' then None else ReadString(s[1..])
  }

  /** A quoted key, an equals sign and a basic string. */
  function ReadPair(s: string): (r: Option<((string, string), string)>)
    ensures r.Some? ==> |r.value.1| < |s|
  {
    var key := ReadQuoted(SkipSpace(s));
    if key.None? then None else
      var eq := SkipSpace(key.value.1);
      if eq == "" || eq[0] != '=' then None else
        var value := ReadQuoted(SkipSpace(eq[1..]));
        if value.None? then None else Some(((key.value.0, value.value.0), value.value.1))
  }

  /** Pairs up to the closing brace; no comma may come right before it. */
  function ReadPairs(s: string): Option<(Table, string)>
    decreases |s|
  {
    var pair := ReadPair(s);
    if pair.None? then None else
      var after := SkipSpace(pair.value.1);
      if after == "" then None
      else if after[0] == '}' then Some(([pair.value.0], after[1..]))
      else if after[0] != ',' then None
      else
        var more := ReadPairs(after[1..]);
        if more.None? then None else Some(([pair.value.0] + more.value.0, more.value.1))
  }

  predicate DistinctKeys(m: Table) {
    forall i, j | 0 <= i < j < |m| :: m[i].0 != m[j].0
  }

  /** A whole inline table: no key may come twice, and nothing may follow but white space. */
  function ReadInlineTable(s: string): Option<Table> {
    if s == "" || s[0] != '{' then None else
      var body := SkipSpace(s[1..]);
      if body != "" && body[0] == '}' then if SkipSpace(body[1..]) == "" then Some([]) else None
      else
        var r := ReadPairs(body);
        if r.None? || SkipSpace(r.value.1) != "" || !DistinctKeys(r.value.0) then None else Some(r.value.0)
  }

  // ---- Escaping ----

  function EscapeChar(c: char): string {
    if c == '\\' then "\\\\" else if c == '"' then "\\\"" else [c]
  }

  function PerChar(s: string): string {
    if s == "" then "" else EscapeChar(s[0]) + PerChar(s[1..])
  }

  lemma {:induction false} ReplaceConcat(a: string, b: string, c: char, subst: string)
    ensures Replace(a + b, c, subst) == Replace(a, c, subst) + Replace(b, c, subst)
  {
    if a == "" {
      assert a + b == b;
    } else {
      ReplaceConcat(a[1..], b, c, subst);
      assert (a + b)[1..] == a[1..] + b;
      var head := if a[0] == c then subst else [a[0]];
      var tail := Replace(a[1..], c, subst);
      assert head + (tail + Replace(b, c, subst)) == (head + tail) + Replace(b, c, subst);
    }
  }

  /** The two successive replacements escape each character on its own: the second one leaves alone what the first put
    * in. */
  lemma {:induction false} EscapeIsPerChar(s: string)
    ensures Escape(s) == PerChar(s)
  {
    if s != "" {
      EscapeIsPerChar(s[1..]);
      var head := if s[0] == '\\' then "\\\\" else [s[0]];
      ReplaceConcat(head, Replace(s[1..], '\\', "\\\\"), '"', "\\\"");
      assert Replace(head, '"', "\\\"") == EscapeChar(s[0]) by {
        ReplaceShort(head, '"', "\\\"");
      }
    }
  }

  lemma ReplaceShort(s: string, c: char, subst: string)
    requires 1 <= |s| <= 2
    ensures |s| == 1 ==> Replace(s, c, subst) == if s[0] == c then subst else s
    ensures |s| == 2 && s[0] != c && s[1] != c ==> Replace(s, c, subst) == s
  {
    assert Replace("", c, subst) == "";
    if |s| == 2 {
      assert s[1..][1..] == "" && s == [s[0]] + [s[1]];
      assert Replace(s[1..], c, subst) == (if s[1] == c then subst else [s[1]]) + "";
    } else {
      assert s[1..] == "" && s == [s[0]];
      assert [s[0]] + "" == s && subst + "" == subst;
    }
  }

  // ---- Reading back what was printed ----

  predicate Clean(s: string) {
    forall i | 0 <= i < |s| :: !Control(s[i])
  }

  lemma {:induction false} ReadEscaped(s: string, rest: string)
    ensures ReadString(PerChar(s) + "\"" + rest) == if Clean(s) then Some((s, rest)) else None
  {
    var text := PerChar(s) + "\"" + rest;
    if s == "" {
      assert text[1..] == rest;
    } else {
      var e, tail := EscapeChar(s[0]), PerChar(s[1..]) + "\"" + rest;
      assert text == e + tail;
      ReadEscaped(s[1..], rest);
      assert s == [s[0]] + s[1..];
      assert Clean(s) <==> !Control(s[0]) && Clean(s[1..]);
      ReadOne(s[0], tail);
    }
  }

  /** Which characters a basic string may hold as they are: all but the codes below 32 other than the tab, and 127. */
  lemma PlainCharacters(c: char)
    requires c != '"' && c != '\\'
    ensures ReadString([c] + "\"") ==
              if (c as int < 32 && c as int != 9) || c as int == 127 then None else Some(([c], ""))
  {
    var text := [c] + "\"";
    assert text[1..] == "\"" && "\""[1..] == "";
    assert ReadString(text[1..]) == Some(("", "")) && [c] + "" == [c];
    assert Control(c) <==> (c as int < 32 && c as int != 9) || c as int == 127;
  }

  /** The reader undoes the escape of one character. */
  lemma ReadOne(c: char, tail: string)
    ensures ReadString(EscapeChar(c) + tail)
         == if Control(c) || ReadString(tail).None? then None
            else Some(([c] + ReadString(tail).value.0, ReadString(tail).value.1))
  {
    var text := EscapeChar(c) + tail;
    if c == '\\' || c == '"' {
      assert text[1..][0] == c && text[2..] == tail;
    } else {
      assert text[1..] == tail;
    }
  }

  lemma ReadItem(key: string, value: string, rest: string)
    ensures ReadPair(Item(key, value) + rest)
         == if Clean(key) && Clean(value) then Some(((key, value), rest)) else None
  {
    hide Escape, PerChar, ReadString, Clean;
    EscapeIsPerChar(key);
    EscapeIsPerChar(value);
    var second := PerChar(value) + "\"" + rest;
    var middle := " = \"" + second;
    var text := Item(key, value) + rest;
    assert text == "\"" + (PerChar(key) + "\"" + middle);
    assert text[1..] == PerChar(key) + "\"" + middle;
    ReadEscaped(key, middle);
    ReadEscaped(value, second);
    ReadEscaped(value, rest);
    assert SkipSpace(text) == text;
    assert middle[1..] == "= \"" + second && SkipSpace(middle) == middle[1..];
    assert middle[1..][1..] == " \"" + second;
    assert SkipSpace(" \"" + second) == "\"" + second by {
      assert (" \"" + second)[1..] == "\"" + second;
    }
    assert ("\"" + second)[1..] == second;
  }

  ghost predicate AllClean(m: Table) {
    forall i | 0 <= i < |m| :: Clean(m[i].0) && Clean(m[i].1)
  }

  lemma {:induction false} ReadItems(m: Table)
    requires m != []
    ensures ReadPairs(Items(m) + " }") == if AllClean(m) then Some((m, "")) else None
  {
    hide Item, ReadPair, Clean;
    var (key, value) := m[0];
    assert AllClean(m) <==> Clean(key) && Clean(value) && AllClean(m[1..]);
    if |m| == 1 {
      ReadItem(key, value, " }");
      assert " }"[1..] == "}" && SkipSpace("}") == "}" && SkipSpace(" }") == "}" && "}"[1..] == "";
      assert m == [(key, value)];
    } else {
      var rest := ", " + Items(m[1..]) + " }";
      assert Items(m) + " }" == Item(key, value) + rest;
      ReadItem(key, value, rest);
      ReadItems(m[1..]);
      SpaceBeforePair(Items(m[1..]) + " }");
      assert rest[1..] == " " + (Items(m[1..]) + " }") && SkipSpace(rest) == rest;
      assert m == [m[0]] + m[1..];
    }
  }

  lemma SpaceBeforePair(s: string)
    ensures ReadPairs(" " + s) == ReadPairs(s)
  {
    assert (" " + s)[1..] == s;
    assert SkipSpace(" " + s) == SkipSpace(s);
    assert ReadPair(" " + s) == ReadPair(s);
  }

  /** Reading back a printed table gives the table exactly when no key or value holds a control character; otherwise the
    * text is not a TOML inline table at all. */
  lemma RoundTrip(m: Table)
    requires DistinctKeys(m)
    ensures ReadInlineTable(InlineTable(m)) == if AllClean(m) then Some(m) else None
  {
    hide ReadPairs, Items, Clean;
    var text := InlineTable(m);
    if m == [] {
      EmptyItems();
      assert text == "{  }";
      assert text[1..] == "  }" && "  }"[1..] == " }" && " }"[1..] == "}" && "}"[1..] == "";
      assert SkipSpace("  }") == SkipSpace(" }") == "}";
    } else {
      ReadItems(m);
      StartsWithQuote(m);
      var body := Items(m) + " }";
      assert text[1..] == " " + body && (" " + body)[1..] == body;
      assert SkipSpace(" " + body) == body;
    }
  }

  lemma EmptyItems()
    ensures Items([]) == ""
  {
  }

  lemma StartsWithQuote(m: Table)
    requires m != []
    ensures Items(m) != "" && Items(m)[0] == '"'
  {
  }

  /** Two tables without control characters never print alike. */
  lemma PrintedTablesDiffer(m: Table, n: Table)
    requires DistinctKeys(m) && DistinctKeys(n) && AllClean(m) && InlineTable(m) == InlineTable(n)
    ensures m == n
  {
    RoundTrip(m);
    RoundTrip(n);
  }

  // ---- The URL of an in-cluster server ----

  predicate EndsWith(s: string, t: string) {
    |t| <= |s| && s[|s| - |t|..] == t
  }

  function TrimSlashes(s: string): (r: string)
    ensures r <= s && (r != "" ==> r[|r| - 1] != '/')
  {
    if s != "" && s[|s| - 1] == '/' then TrimSlashes(s[..|s| - 1]) else s
  }

  /** `inCluster` says which URLs name one of the known hosts. */
  function RewriteUrl(url: string, inCluster: string -> bool): string {
    var trimmed := TrimSlashes(url);
    if url != "" && inCluster(url) && EndsWith(trimmed, "/sse") then trimmed[..|trimmed| - 4] + "/mcp/" else url
  }

  /** The rewrite is idempotent, and a rewritten URL no longer names the event-stream route. */
  lemma RewriteOnce(url: string, inCluster: string -> bool)
    ensures RewriteUrl(RewriteUrl(url, inCluster), inCluster) == RewriteUrl(url, inCluster)
    ensures RewriteUrl(url, inCluster) != url ==> !EndsWith(TrimSlashes(RewriteUrl(url, inCluster)), "/sse")
  {
    var once := RewriteUrl(url, inCluster);
    if once != url {
      var trimmed := TrimSlashes(url);
      var base := trimmed[..|trimmed| - 4];
      assert once == base + "/mcp/";
      assert once[..|once| - 1] == base + "/mcp";
      assert TrimSlashes(once) == base + "/mcp";
      assert (base + "/mcp")[|base + "/mcp"| - 1] == 'p';
      assert !EndsWith(base + "/mcp", "/sse") by {
        assert (base + "/mcp")[|base| + 3] == 'p' && "/sse"[3] == 'e';
      }
    }
  }

  lemma {:induction false} TrimTrailing(s: string, slashes: string)
    requires s != "" && s[|s| - 1] != '/'
    requires forall k | 0 <= k < |slashes| :: slashes[k] == '/'
    ensures TrimSlashes(s + slashes) == s
    decreases |slashes|
  {
    if slashes == "" {
      assert s + slashes == s;
    } else {
      var fewer := slashes[..|slashes| - 1];
      assert (s + slashes)[..|s + slashes| - 1] == s + fewer;
      TrimTrailing(s, fewer);
    }
  }

  lemma {:induction false} WhatWasTrimmed(s: string) returns (slashes: string)
    ensures s == TrimSlashes(s) + slashes && forall k | 0 <= k < |slashes| :: slashes[k] == '/'
  {
    slashes := "";
    if s != "" && s[|s| - 1] == '/' {
      slashes := WhatWasTrimmed(s[..|s| - 1]);
      slashes := slashes + "/";
    }
  }

  /** A URL of a known host that ends in the event-stream route, with any number of slashes after it, gets the other
    * route and one slash. */
  lemma RouteIsReplaced(base: string, slashes: string, inCluster: string -> bool)
    requires forall k | 0 <= k < |slashes| :: slashes[k] == '/'
    requires inCluster(base + "/sse" + slashes)
    ensures RewriteUrl(base + "/sse" + slashes, inCluster) == base + "/mcp/"
  {
    TrimTrailing(base + "/sse", slashes);
    assert (base + "/sse")[..|base|] == base;
  }

  /** Every other URL is left alone. */
  lemma RewrittenHadTheRoute(url: string, inCluster: string -> bool) returns (base: string, slashes: string)
    requires RewriteUrl(url, inCluster) != url
    ensures inCluster(url) && url == base + "/sse" + slashes && forall k | 0 <= k < |slashes| :: slashes[k] == '/'
  {
    slashes := WhatWasTrimmed(url);
    var trimmed := TrimSlashes(url);
    base := trimmed[..|trimmed| - 4];
    assert trimmed == base + "/sse";
  }
}
