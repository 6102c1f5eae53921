// The kernel command line: what the boot server prints and what the agent parses.
module CommandLine {
  import opened Text

  // ----- strings.Fields -----

  // unicode.IsSpace
  predicate IsSpace(c: char) {
    || '\t' <= c <= '\r' || c == ' ' || c == '\U{85}' || c == '\U{A0}' || c == '\U{1680}'
    || '\U{2000}' <= c <= '\U{200A}' || c == '\U{2028}' || c == '\U{2029}' || c == '\U{202F}' || c == '\U{205F}'
    || c == '\U{3000}'
  }

  ghost predicate NoSpace(s: string) {
    forall i :: 0 <= i < |s| ==> !IsSpace(s[i])
  }

  // Length of the leading word.
  function WordLength(s: string): (k: nat)
    ensures k <= |s| && (k < |s| ==> IsSpace(s[k])) && forall i :: 0 <= i < k ==> !IsSpace(s[i])
  {
    if s == "" || IsSpace(s[0]) then 0 else 1 + WordLength(s[1..])
  }

  function Fields(s: string): seq<string>
    decreases |s|
  {
    if s == "" then []
    else if IsSpace(s[0]) then Fields(s[1..])
    else [s[..WordLength(s)]] + Fields(s[WordLength(s)..])
  }

  // ----- the parser -----

  datatype Cmdline = Cmdline(server: string, token: string)

  const SERVER_KEY := "kezio.server"
  const TOKEN_KEY := "kezio.token"

  // strings.Cut at the first "=", and the switch on the key.
  function ParseField(c: Cmdline, field: string): Cmdline {
    var k := Find(field, '=');
    if k == |field| then c
    else if field[..k] == SERVER_KEY then c.(server := field[k + 1..])
    else if field[..k] == TOKEN_KEY then c.(token := field[k + 1..])
    else c
  }

  function ParseFields(c: Cmdline, fields: seq<string>): Cmdline
    decreases |fields|
  {
    if fields == [] then c else ParseFields(ParseField(c, fields[0]), fields[1..])
  }

  /** ParseCmdline */
  method ParseCmdline(raw: string) returns (c: Cmdline)
    ensures c == ParseFields(Cmdline("", ""), Fields(raw))
  {
    c := Cmdline("", "");
    var fields := Fields(raw);
    for i := 0 to |fields|
      invariant ParseFields(c, fields[i..]) == ParseFields(Cmdline("", ""), fields)
    {
      assert fields[i..][0] == fields[i] && fields[i..][1..] == fields[i + 1..];
      var tok := fields[i];
      var k := Find(tok, '=');
      if k == |tok| {
        continue;
      }
      var key, value := tok[..k], tok[k + 1..];
      if key == SERVER_KEY {
        c := c.(server := value);
      } else if key == TOKEN_KEY {
        c := c.(token := value);
      }
    }
  }

  // ----- the printer -----

  // strings.TrimRight(s, "/")
  function TrimSlashes(s: string): (r: string)
    ensures r <= s && (r != "" ==> r[|r| - 1] != '/')
    ensures forall i :: |r| <= i < |s| ==> s[i] == '/'
  {
    if s != "" && s[|s| - 1] == '/' then TrimSlashes(s[..|s| - 1]) else s
  }

  // Words, each preceded by a space.
  function Spaced(words: seq<string>): string {
    if words == [] then "" else " " + words[0] + Spaced(words[1..])
  }

  function ConsoleWords(console: seq<string>): (words: seq<string>)
    ensures |words| == |console| && forall i :: 0 <= i < |words| ==> words[i] == "console=" + console[i]
  {
    seq(|console|, i requires 0 <= i < |console| => "console=" + console[i])
  }

  lemma {:induction false} SpacedAppend(a: seq<string>, b: seq<string>)
    ensures Spaced(a + b) == Spaced(a) + Spaced(b)
  {
    if a == [] {
      assert a + b == b;
    } else {
      assert (a + b)[1..] == a[1..] + b;
      SpacedAppend(a[1..], b);
    }
  }

  lemma {:induction false} OneConsoleMore(console: seq<string>, i: nat)
    requires i < |console|
    ensures Spaced(ConsoleWords(console[..i + 1])) == Spaced(ConsoleWords(console[..i])) + " console=" + console[i]
  {
    var word := "console=" + console[i];
    assert ConsoleWords(console[..i + 1]) == ConsoleWords(console[..i]) + [word];
    SpacedAppend(ConsoleWords(console[..i]), [word]);
    SpacedOne(word);
    assert " " + word == " console=" + console[i];
  }

  /** consoleCmdlineArgs */
  method ConsoleCmdlineArgs(console: seq<string>) returns (b: string)
    ensures b == Spaced(ConsoleWords(console))
  {
    b := "";
    for i := 0 to |console|
      invariant b == Spaced(ConsoleWords(console[..i]))
    {
      OneConsoleMore(console, i);
      b := b + " console=";
      b := b + console[i];
    }
    assert console[..|console|] == console;
  }

  // The arguments of renderNetBootConfig's linux line; kernelPath and squashfsURL are already resolved.
  method LinuxArguments(kernelPath: string, squashfsURL: string, agentServerURL: string, token: string,
                        console: seq<string>)
    returns (args: string)
    ensures args == kernelPath + Spaced(LinuxWords(squashfsURL, agentServerURL, token, console))
  {
    var server := TrimSlashes(agentServerURL);
    var tokenArg := "";
    if token != "" {
      tokenArg := " kezio.token=" + token;
    }
    var consoleArgs := ConsoleCmdlineArgs(console);
    args := kernelPath + " boot=live fetch=" + squashfsURL + " kezio.server=" + server + tokenArg + consoleArgs;
    LinuxWordsSpaced(kernelPath, squashfsURL, server, token, console, tokenArg, consoleArgs);
  }

  function TokenWords(token: string): seq<string> {
    if token != "" then [TOKEN_KEY + "=" + token] else []
  }

  function LinuxWords(squashfsURL: string, agentServerURL: string, token: string, console: seq<string>): seq<string> {
    ["boot=live", "fetch=" + squashfsURL, SERVER_KEY + "=" + TrimSlashes(agentServerURL)] + TokenWords(token) +
      ConsoleWords(console)
  }

  lemma SpacedOne(a: string)
    ensures Spaced([a]) == " " + a
  {
    assert [a][1..] == [];
    assert Spaced([]) == "";
  }

  lemma SpacedThree(a: string, b: string, c: string)
    ensures Spaced([a, b, c]) == " " + a + (" " + b) + (" " + c)
  {
    SpacedOne(a);
    SpacedOne(b);
    SpacedOne(c);
    SpacedAppend([a], [b]);
    SpacedAppend([a] + [b], [c]);
    assert [a, b, c] == [a] + [b] + [c];
  }

  // The format string's fixed text, word by word.
  lemma FixedText(kernelPath: string, squashfsURL: string, server: string)
    ensures kernelPath + " boot=live fetch=" + squashfsURL + " kezio.server=" + server ==
            kernelPath + (" " + "boot=live" + (" " + ("fetch=" + squashfsURL)) + (" " + (SERVER_KEY + "=" + server)))
  {
    assert " boot=live fetch=" == " boot=live" + " fetch=";
    assert " boot=live" == " " + "boot=live" && " fetch=" == " " + "fetch="
      && " kezio.server=" == " " + (SERVER_KEY + "=");
  }

  lemma LinuxWordsSpaced(kernelPath: string, squashfsURL: string, server: string, token: string, console: seq<string>,
                         tokenArg: string, consoleArgs: string)
    requires tokenArg == if token != "" then " kezio.token=" + token else ""
    requires consoleArgs == Spaced(ConsoleWords(console))
    ensures kernelPath + " boot=live fetch=" + squashfsURL + " kezio.server=" + server + tokenArg + consoleArgs ==
            kernelPath + Spaced(["boot=live", "fetch=" + squashfsURL, SERVER_KEY + "=" + server] + TokenWords(token) +
                                ConsoleWords(console))
  {
    var fixed := ["boot=live", "fetch=" + squashfsURL, SERVER_KEY + "=" + server];
    FixedText(kernelPath, squashfsURL, server);
    SpacedThree("boot=live", "fetch=" + squashfsURL, SERVER_KEY + "=" + server);
    TokenSpaced(token);
    SpacedAppend(fixed, TokenWords(token));
    SpacedAppend(fixed + TokenWords(token), ConsoleWords(console));
    Associative(kernelPath, Spaced(fixed), tokenArg);
    Associative(kernelPath, Spaced(fixed) + tokenArg, consoleArgs);
  }

  lemma TokenSpaced(token: string)
    ensures Spaced(TokenWords(token)) == if token != "" then " kezio.token=" + token else ""
  {
    if token != "" {
      SpacedOne(TOKEN_KEY + "=" + token);
      assert " kezio.token=" == " " + (TOKEN_KEY + "=");
    }
  }

  // ----- reading the words back -----

  ghost predicate IsWord(w: string) {
    w != "" && NoSpace(w)
  }

  lemma {:induction false} WordLengthIs(w: string, rest: string)
    requires NoSpace(w) && (rest != "" ==> IsSpace(rest[0]))
    ensures WordLength(w + rest) == |w|
  {
    var s := w + rest;
    assert forall i :: 0 <= i < |w| ==> s[i] == w[i];
    assert rest != "" ==> s[|w|] == rest[0];
  }

  lemma {:induction false} FieldsOfSpaced(words: seq<string>)
    requires forall i :: 0 <= i < |words| ==> IsWord(words[i])
    ensures Fields(Spaced(words)) == words
    decreases |words|
  {
    if words != [] {
      FieldsOfSpaced(words[1..]);
      SpacedStarts(words[1..]);
      FieldsOfSpace(words[0], Spaced(words[1..]));
      assert words == [words[0]] + words[1..];
    }
  }

  lemma {:induction false} SpacedStarts(words: seq<string>)
    ensures Spaced(words) != "" ==> IsSpace(Spaced(words)[0])
  {
  }

  lemma {:induction false} FieldsOfSpace(w: string, rest: string)
    requires IsWord(w) && (rest != "" ==> IsSpace(rest[0]))
    ensures Fields(" " + w + rest) == [w] + Fields(rest)
  {
    var s := " " + w + rest;
    assert s[0] == ' ' && s[1..] == w + rest;
    FieldsOfWord(w, rest);
  }

  lemma FieldsOfWord(w: string, rest: string)
    requires NoSpace(w) && (rest != "" ==> IsSpace(rest[0]))
    ensures Fields(w + rest) == (if w == "" then [] else [w]) + Fields(rest)
  {
    if w == "" {
      assert w + rest == rest;
    } else {
      WordLengthIs(w, rest);
      assert (w + rest)[..|w|] == w && (w + rest)[|w|..] == rest;
    }
  }

  // A space after a word, and after anything.
  lemma {:induction false} TrailingSpace(s: string, c: char)
    requires IsSpace(c)
    ensures Fields(s + [c]) == Fields(s)
    decreases |s|
  {
    if s == "" {
      assert s + [c] == [c] && [c][1..] == "";
      assert Fields("") == [];
    } else if IsSpace(s[0]) {
      assert (s + [c])[1..] == s[1..] + [c];
      TrailingSpace(s[1..], c);
    } else {
      var k := WordLength(s);
      TrailingSpace(s[k..], c);
      WordThenSpace(s, c, k);
    }
  }

  lemma {:induction false} WordThenSpace(s: string, c: char, k: nat)
    requires IsSpace(c) && s != "" && !IsSpace(s[0]) && k == WordLength(s)
    ensures k > 0 && Fields(s + [c]) == [s[..k]] + Fields(s[k..] + [c]) && Fields(s) == [s[..k]] + Fields(s[k..])
  {
    var w, rest := s[..k], s[k..] + [c];
    assert k > 0;
    assert s + [c] == w + rest && NoSpace(w);
    assert rest[0] == if k < |s| then s[k] else c;
    FieldsOfWord(w, rest);
  }

  /** The newline that ends /proc/cmdline does not matter, and neither does other ASCII white space at the end. */
  lemma {:induction false} LineEndIgnored(raw: string, c: char)
    requires c == '\n' || c == '\r' || c == '\t' || c == ' ' || c == '\U{B}' || c == '\U{C}'
    ensures ParseFields(Cmdline("", ""), Fields(raw + [c])) == ParseFields(Cmdline("", ""), Fields(raw))
  {
    TrailingSpace(raw, c);
  }

  // ----- the round trip -----

  lemma KeyedField(c: Cmdline, key: string, value: string)
    requires '=' !in key
    ensures ParseField(c, key + "=" + value) ==
            if key == SERVER_KEY then c.(server := value) else if key == TOKEN_KEY then c.(token := value) else c
  {
    FindFirst(key, '=', value);
    assert key + "=" + value == key + ['='] + value;
  }

  lemma {:induction false} ForeignFields(c: Cmdline, console: seq<string>)
    ensures ParseFields(c, ConsoleWords(console)) == c
    decreases |console|
  {
    if console != [] {
      assert '=' !in "console" && "console=" + console[0] == "console" + "=" + console[0];
      KeyedField(c, "console", console[0]);
      assert ConsoleWords(console)[1..] == ConsoleWords(console[1..]);
      ForeignFields(c, console[1..]);
    }
  }

  lemma {:induction false} ParseAppend(c: Cmdline, a: seq<string>, b: seq<string>)
    ensures ParseFields(c, a + b) == ParseFields(ParseFields(c, a), b)
    decreases |a|
  {
    if a == [] {
      assert a + b == b;
    } else {
      assert (a + b)[1..] == a[1..] + b;
      ParseAppend(ParseField(c, a[0]), a[1..], b);
    }
  }

  lemma {:induction false} ParseOne(c: Cmdline, field: string)
    ensures ParseFields(c, [field]) == ParseField(c, field)
  {
    assert [field][1..] == [];
  }

  // The value the parser holds for one of its two keys.
  function ValueOf(c: Cmdline, key: string): string {
    if key == SERVER_KEY then c.server else c.token
  }

  ghost predicate IsKeyed(field: string, key: string) {
    exists value :: field == key + "=" + value
  }

  // Field i is the last one of the form key=value.
  ghost predicate IsLastKeyed(fields: seq<string>, i: int, key: string, value: string) {
    && 0 <= i < |fields| && fields[i] == key + "=" + value
    && (forall j :: i < j < |fields| ==> !IsKeyed(fields[j], key))
  }

  lemma KeysHaveNoEquals()
    ensures '=' !in SERVER_KEY && '=' !in TOKEN_KEY && SERVER_KEY != TOKEN_KEY
  {
  }

  // A field that is not of the form key=value leaves key's value alone.
  lemma UnkeyedKeeps(c: Cmdline, field: string, key: string)
    requires (key == SERVER_KEY || key == TOKEN_KEY) && !IsKeyed(field, key)
    ensures ValueOf(ParseField(c, field), key) == ValueOf(c, key)
  {
    KeysHaveNoEquals();
    var k := Find(field, '=');
    if k < |field| {
      assert field == field[..k] + "=" + field[k + 1..];
      assert field[..k] != key;
    }
  }

  /** Where no field has the form key=value, key's value stays. */
  lemma {:induction false} NoKeyNoValue(c: Cmdline, fields: seq<string>, key: string)
    requires key == SERVER_KEY || key == TOKEN_KEY
    requires forall j :: 0 <= j < |fields| ==> !IsKeyed(fields[j], key)
    ensures ValueOf(ParseFields(c, fields), key) == ValueOf(c, key)
    decreases |fields|
  {
    if fields != [] {
      UnkeyedKeeps(c, fields[0], key);
      NoKeyNoValue(ParseField(c, fields[0]), fields[1..], key);
    }
  }

  /** The last field of the form key=value decides, whatever the others are. */
  lemma {:induction false} LastOccurrenceWins(c: Cmdline, fields: seq<string>, i: int, key: string, value: string)
    requires (key == SERVER_KEY || key == TOKEN_KEY) && IsLastKeyed(fields, i, key, value)
    ensures ValueOf(ParseFields(c, fields), key) == value
    decreases |fields|
  {
    var next := ParseField(c, fields[0]);
    if i == 0 {
      KeysHaveNoEquals();
      KeyedField(c, key, value);
      NoKeyNoValue(next, fields[1..], key);
    } else {
      LastOccurrenceWins(next, fields[1..], i - 1, key, value);
    }
  }

  // What the printed words mean to the parser.
  lemma {:induction false} WordsParse(squashfsURL: string, agentServerURL: string, token: string, console: seq<string>)
    ensures ParseFields(Cmdline("", ""), LinuxWords(squashfsURL, agentServerURL, token, console)) ==
            Cmdline(TrimSlashes(agentServerURL), token)
  {
    var c, server := Cmdline("", ""), TrimSlashes(agentServerURL);
    var fixed := ["boot=live", "fetch=" + squashfsURL, SERVER_KEY + "=" + server];
    FixedParse(squashfsURL, server);
    ParseAppend(c, fixed, TokenWords(token));
    ParseAppend(c, fixed + TokenWords(token), ConsoleWords(console));
    TokenParse(server, token);
    ForeignFields(Cmdline(server, token), console);
  }

  lemma {:induction false} TokenParse(server: string, token: string)
    ensures ParseFields(Cmdline(server, ""), TokenWords(token)) == Cmdline(server, token)
  {
    if token != "" {
      ParseOne(Cmdline(server, ""), TOKEN_KEY + "=" + token);
      KeyedField(Cmdline(server, ""), TOKEN_KEY, token);
    }
  }

  lemma {:induction false} FixedParse(squashfsURL: string, server: string)
    ensures ParseFields(Cmdline("", ""), ["boot=live", "fetch=" + squashfsURL, SERVER_KEY + "=" + server]) ==
            Cmdline(server, "")
  {
    var a, b, d := "boot=live", "fetch=" + squashfsURL, SERVER_KEY + "=" + server;
    var c := Cmdline("", "");
    BootParse(c);
    FetchParse(c, squashfsURL);
    KeyedField(c, SERVER_KEY, server);
    ParseThree(c, a, b, d);
  }

  lemma {:induction false} ParseThree(c: Cmdline, a: string, b: string, d: string)
    ensures ParseFields(c, [a, b, d]) == ParseField(ParseField(ParseField(c, a), b), d)
  {
    ParseOne(c, a);
    ParseOne(ParseField(c, a), b);
    ParseOne(ParseField(ParseField(c, a), b), d);
    ParseAppend(c, [a], [b]);
    ParseAppend(c, [a] + [b], [d]);
    assert [a, b, d] == [a] + [b] + [d];
  }

  lemma BootParse(c: Cmdline)
    ensures ParseField(c, "boot=live") == c
  {
    assert "boot=live" == "boot" + "=" + "live";
    KeyedField(c, "boot", "live");
  }

  lemma FetchParse(c: Cmdline, squashfsURL: string)
    ensures ParseField(c, "fetch=" + squashfsURL) == c
  {
    assert "fetch=" + squashfsURL == "fetch" + "=" + squashfsURL;
    KeyedField(c, "fetch", squashfsURL);
  }

  /** What is on the command line, field by field: the kernel, live boot from the given URL, the trimmed agent URL, the
      token if there is one, and the consoles in order. */
  lemma {:induction false} FieldsOfCmdline(kernelPath: string, squashfsURL: string, agentServerURL: string,
                                           token: string, console: seq<string>)
    requires kernelPath != "" && NoSpace(kernelPath) && NoSpace(squashfsURL) && NoSpace(agentServerURL)
    requires NoSpace(token)
    requires forall i :: 0 <= i < |console| ==> NoSpace(console[i])
    ensures var fields := Fields(kernelPath + Spaced(LinuxWords(squashfsURL, agentServerURL, token, console)));
            var n := if token == "" then 4 else 5;
            && |fields| == n + |console|
            && fields[0] == kernelPath && fields[1] == "boot=live" && fields[2] == "fetch=" + squashfsURL
            && fields[3] == "kezio.server=" + TrimSlashes(agentServerURL)
            && (token != "" ==> fields[4] == "kezio.token=" + token)
            && (forall i :: 0 <= i < |console| ==> fields[n + i] == "console=" + console[i])
  {
    var words := LinuxWords(squashfsURL, agentServerURL, token, console);
    WordsAreWords(squashfsURL, agentServerURL, token, console);
    FieldsOfSpaced(words);
    assert Spaced(words)[0] == ' ';
    FieldsOfWord(kernelPath, Spaced(words));
    assert SERVER_KEY + "=" == "kezio.server=" && TOKEN_KEY + "=" == "kezio.token=";
  }

  /** The agent reads back the trimmed agent URL and the token, or no token when none was printed. */
  lemma {:induction false} CmdlineRoundTrip(kernelPath: string, squashfsURL: string, agentServerURL: string,
                                            token: string, console: seq<string>)
    requires kernelPath != "" && kernelPath[0] == '('
    requires NoSpace(kernelPath) && NoSpace(squashfsURL) && NoSpace(agentServerURL) && NoSpace(token)
    requires forall i :: 0 <= i < |console| ==> NoSpace(console[i])
    ensures ParseFields(Cmdline("", ""),
                        Fields(kernelPath + Spaced(LinuxWords(squashfsURL, agentServerURL, token, console))))
            == Cmdline(TrimSlashes(agentServerURL), token)
  {
    var words := LinuxWords(squashfsURL, agentServerURL, token, console);
    WordsAreWords(squashfsURL, agentServerURL, token, console);
    FieldsOfSpaced(words);
    assert Spaced(words)[0] == ' ';
    FieldsOfWord(kernelPath, Spaced(words));
    WordsParse(squashfsURL, agentServerURL, token, console);
    ForeignKernel(kernelPath);
    assert ([kernelPath] + words)[1..] == words;
  }

  // A GRUB network path is no key of ours.
  lemma ForeignKernel(kernelPath: string)
    requires kernelPath != "" && kernelPath[0] == '('
    ensures ParseField(Cmdline("", ""), kernelPath) == Cmdline("", "")
  {
    var k := Find(kernelPath, '=');
    if 0 < k < |kernelPath| {
      assert kernelPath[..k][0] == '(';
      assert SERVER_KEY[0] == 'k' && TOKEN_KEY[0] == 'k';
    }
  }

  lemma KeysAreWords()
    ensures NoSpace("boot=live") && NoSpace("fetch=") && NoSpace("console=")
    ensures NoSpace(SERVER_KEY + "=") && NoSpace(TOKEN_KEY + "=")
  {
  }

  lemma WordsAreWords(squashfsURL: string, agentServerURL: string, token: string, console: seq<string>)
    requires NoSpace(squashfsURL) && NoSpace(agentServerURL) && NoSpace(token)
    requires forall i :: 0 <= i < |console| ==> NoSpace(console[i])
    ensures var words := LinuxWords(squashfsURL, agentServerURL, token, console);
            forall i :: 0 <= i < |words| ==> IsWord(words[i])
  {
    var words := LinuxWords(squashfsURL, agentServerURL, token, console);
    KeysAreWords();
    assert NoSpace(TrimSlashes(agentServerURL));
    forall i | 0 <= i < |words|
      ensures IsWord(words[i])
    {
      var n := 3 + |TokenWords(token)|;
      if i >= n { assert words[i] == "console=" + console[i - n]; }
    }
  }
}
