/** The assignments setup writes, and the shell that sources them. */
module Shell {
  import opened Text
  import opened ManagedBlock

  /** Single quotes inside the value become '\'' . */
  function Escaped(s: string): string {
    if s == "" then "" else (if s[0] == '\'' then "'\\''" else [s[0]]) + Escaped(s[1..])
  }

  function ShellQuote(s: string): string {
    "'" + (Escaped(s) + "'")
  }

  // ------------------------------------------- POSIX Shell Command Language

  /** One word of input: its value after quote removal and the input that follows it.
      Unreadable covers a missing closing quote, a NUL, and the expansions and double
      quotes this reader does not follow. */
  datatype Word = Word(value: string, rest: string) | Unreadable

  /** A token ends here (section 2.3). */
  predicate Delimiter(c: char) {
    c == '\n' || c == ' ' || c == '\t' || c == ';' || c == '&' || c == '|' || c == '<' || c == '>' || c == '(' || c == ')'
  }

  predicate Expands(c: char) {
    c == '$' || c == '`' || c == '"' || c == '~' || c == '\0'
  }

  /** Outside quotes; a backslash keeps the next character, or joins lines (section 2.2.1). */
  function Unquoted(s: string, value: string): (w: Word)
    ensures w.Word? ==> |w.rest| <= |s|
    decreases |s|
  {
    if s == "" then Word(value, "")
    else if s[0] == '\'' then Single(s[1..], value)
    else if s[0] == '\\' then
      if |s| == 1 then Unreadable
      else Unquoted(s[2..], if s[1] == '\n' then value else value + [s[1]])
    else if Delimiter(s[0]) then Word(value, s)
    else if Expands(s[0]) then Unreadable
    else Unquoted(s[1..], value + [s[0]])
  }

  /** Within single quotes every character stands for itself (section 2.2.2). */
  function Single(s: string, value: string): (w: Word)
    ensures w.Word? ==> |w.rest| <= |s|
    decreases |s|
  {
    if s == "" || s[0] == '\0' then Unreadable
    else if s[0] == '\'' then Unquoted(s[1..], value)
    else Single(s[1..], value + [s[0]])
  }

  predicate NameChar(c: char) {
    'A' <= c <= 'Z' || 'a' <= c <= 'z' || '0' <= c <= '9' || c == '_'
  }

  predicate AllName(s: string) {
    forall c <- s :: NameChar(c)
  }

  predicate IsName(s: string) {
    s != "" && AllName(s) && !('0' <= s[0] <= '9')
  }

  function NameOf(s: string): (n: string)
    ensures n <= s
  {
    if s != "" && NameChar(s[0]) then [s[0]] + NameOf(s[1..]) else ""
  }

  /** The text from the next line on. */
  function NextLine(s: string): (r: string)
    ensures |r| <= |s| && (s != "" ==> |r| < |s|)
  {
    if s == "" then "" else if s[0] == '\n' then s[1..] else NextLine(s[1..])
  }

  datatype Sourced = Env(vars: map<string, string>) | Fails

  /** Sourcing a file of comments, empty lines and assignments (section 2.9.1). */
  function Source(s: string, env: map<string, string>): Sourced
    decreases |s|
  {
    if s == "" then Env(env)
    else if s[0] == '\n' then Source(s[1..], env)
    else if s[0] == '#' then Source(NextLine(s), env)
    else
      var name := NameOf(s);
      if !IsName(name) || |name| == |s| || s[|name|] != '=' then Fails
      else
        var after := s[|name| + 1..];
        var w := Unquoted(after, "");
        if w.Unreadable? || (w.rest != "" && w.rest[0] != '\n') then Fails
        else Source(w.rest, env[name := w.value])
  }

  // ------------------------------------------------------------------ quoting

  lemma SingleKeeps(c: char, more: string, value: string)
    requires c != '\'' && c != '\0'
    ensures Single([c] + more, value) == Single(more, value + [c])
  {
    assert ([c] + more)[1..] == more;
  }

  lemma SingleCloses(more: string, value: string)
    ensures Single("'" + more, value) == Unquoted(more, value)
  {
    assert ("'" + more)[1..] == more;
  }

  lemma QuoteOpens(more: string, value: string)
    ensures Unquoted("'" + more, value) == Single(more, value)
  {
    assert ("'" + more)[1..] == more;
  }

  lemma BackslashKeeps(c: char, more: string, value: string)
    requires c != '\n'
    ensures Unquoted(['\\', c] + more, value) == Unquoted(more, value + [c])
  {
    assert (['\\', c] + more)[2..] == more;
  }

  /** What reading one character of the value inside quotes does: an embedded quote
      closes, is escaped, and reopens. */
  lemma SingleOne(s: string, tail: string, value: string)
    requires s != "" && s[0] != '\0'
    ensures Single(Escaped(s) + tail, value) == Single(Escaped(s[1..]) + tail, value + [s[0]])
  {
    var more := Escaped(s[1..]) + tail;
    if s[0] == '\'' {
      assert Escaped(s) + tail == "'" + (['\\', '\''] + ("'" + more));
      SingleCloses(['\\', '\''] + ("'" + more), value);
      BackslashKeeps('\'', "'" + more, value);
      QuoteOpens(more, value + ['\'']);
    } else {
      assert Escaped(s) + tail == [s[0]] + more;
      SingleKeeps(s[0], more, value);
    }
  }

  lemma {:induction false} SingleReads(s: string, tail: string, value: string)
    requires '\0' !in s
    ensures Single(Escaped(s) + tail, value) == Single(tail, value + s)
    decreases |s|
  {
    if s == "" {
      assert Escaped(s) + tail == tail && value + s == value;
    } else {
      SingleOne(s, tail, value);
      SingleReads(s[1..], tail, value + [s[0]]);
      assert value + s == value + [s[0]] + s[1..];
    }
  }

  /** A quoted NUL-free value reads as one word part with exactly that value. */
  lemma QuotedReads(s: string, rest: string, value: string)
    requires '\0' !in s
    ensures Unquoted(ShellQuote(s) + rest, value) == Unquoted(rest, value + s)
  {
    assert ShellQuote(s) + rest == "'" + (Escaped(s) + ("'" + rest));
    QuoteOpens(Escaped(s) + ("'" + rest), value);
    SingleReads(s, "'" + rest, value);
    SingleCloses(rest, value + s);
  }

  lemma {:induction false} NulIsUnreadable(s: string, tail: string, value: string)
    requires '\0' in s
    ensures Single(Escaped(s) + tail, value).Unreadable?
    decreases |s|
  {
    if s[0] == '\0' {
      assert Escaped(s) + tail == [s[0]] + (Escaped(s[1..]) + tail);
    } else {
      SingleOne(s, tail, value);
      NulIsUnreadable(s[1..], tail, value + [s[0]]);
    }
  }

  /** The shell reads a quoted value back exactly when it has no NUL, which no shell
      variable can hold. */
  lemma QuotingRoundTrip(s: string)
    ensures Unquoted(ShellQuote(s), "") == Word(s, "") <==> '\0' !in s
  {
    assert ShellQuote(s) + "" == ShellQuote(s);
    assert ShellQuote(s)[1..] == Escaped(s) + "'";
    if '\0' in s { NulIsUnreadable(s, "'", ""); } else { QuotedReads(s, "", ""); }
  }

  // ----------------------------------------------------------- reading a prefix

  lemma {:induction false} UnquotedAppend(a: string, b: string, value: string)
    requires Unquoted(a, value).Word? && Unquoted(a, value).rest != ""
    ensures Unquoted(a + b, value) == Unquoted(a, value).(rest := Unquoted(a, value).rest + b)
    decreases |a|
  {
    if a[0] == '\'' {
      assert (a + b)[1..] == a[1..] + b;
      SingleAppend(a[1..], b, value);
    } else if a[0] == '\\' {
      assert (a + b)[2..] == a[2..] + b;
      UnquotedAppend(a[2..], b, if a[1] == '\n' then value else value + [a[1]]);
    } else if !Delimiter(a[0]) {
      assert (a + b)[1..] == a[1..] + b;
      UnquotedAppend(a[1..], b, value + [a[0]]);
    }
  }

  lemma {:induction false} SingleAppend(a: string, b: string, value: string)
    requires Single(a, value).Word? && Single(a, value).rest != ""
    ensures Single(a + b, value) == Single(a, value).(rest := Single(a, value).rest + b)
    decreases |a|
  {
    assert (a + b)[1..] == a[1..] + b;
    if a[0] == '\'' { UnquotedAppend(a[1..], b, value); } else { SingleAppend(a[1..], b, value + [a[0]]); }
  }

  /** Ends in a newline that no backslash joins to the next line. */
  predicate LineClosed(s: string) {
    s == "" || (s[|s| - 1] == '\n' && (|s| >= 2 ==> s[|s| - 2] != '\\'))
  }

  lemma TailClosed(s: string, k: nat)
    requires k <= |s| && LineClosed(s)
    ensures LineClosed(s[k..])
  {
  }

  /** A word never swallows the line end that closes the text. */
  lemma {:induction false} UnquotedStops(a: string, value: string)
    requires a != "" && LineClosed(a) && Unquoted(a, value).Word?
    ensures Unquoted(a, value).rest != "" && LineClosed(Unquoted(a, value).rest)
    decreases |a|
  {
    if a[0] == '\'' {
      TailClosed(a, 1);
      SingleStops(a[1..], value);
    } else if a[0] == '\\' {
      TailClosed(a, 2);
      assert |a| > 2;
      UnquotedStops(a[2..], if a[1] == '\n' then value else value + [a[1]]);
    } else if !Delimiter(a[0]) {
      TailClosed(a, 1);
      UnquotedStops(a[1..], value + [a[0]]);
    }
  }

  lemma {:induction false} SingleStops(a: string, value: string)
    requires LineClosed(a) && Single(a, value).Word?
    ensures Single(a, value).rest != "" && LineClosed(Single(a, value).rest)
    decreases |a|
  {
    TailClosed(a, 1);
    if a[0] == '\'' { UnquotedStops(a[1..], value); } else { SingleStops(a[1..], value + [a[0]]); }
  }

  lemma {:induction false} NextLineAppend(a: string, b: string)
    requires LineClosed(a) && a != ""
    ensures NextLine(a + b) == NextLine(a) + b && LineClosed(NextLine(a))
    decreases |a|
  {
    assert (a + b)[1..] == a[1..] + b;
    TailClosed(a, 1);
    if a[0] != '\n' { NextLineAppend(a[1..], b); }
  }

  lemma {:induction false} NameAppend(a: string, b: string)
    requires |NameOf(a)| < |a|
    ensures NameOf(a + b) == NameOf(a)
    decreases |a|
  {
    assert (a + b)[1..] == a[1..] + b;
    if NameChar(a[0]) { NameAppend(a[1..], b); }
  }

  /** Sourcing a file is sourcing its beginning, then the rest in the environment that
      left behind. */
  lemma {:induction false} SourceAppend(a: string, b: string, env: map<string, string>)
    requires LineClosed(a) && Source(a, env).Env?
    ensures Source(a + b, env) == Source(b, Source(a, env).vars)
    decreases |a|
  {
    if a == "" {
      assert a + b == b;
    } else if a[0] == '\n' {
      assert (a + b)[1..] == a[1..] + b;
      TailClosed(a, 1);
      SourceAppend(a[1..], b, env);
    } else if a[0] == '#' {
      NextLineAppend(a, b);
      SourceAppend(NextLine(a), b, env);
    } else {
      AssignmentAppend(a, b, env);
    }
  }

  lemma {:induction false} AssignmentAppend(a: string, b: string, env: map<string, string>)
    requires LineClosed(a) && Source(a, env).Env?
    requires a != "" && a[0] != '\n' && a[0] != '#'
    ensures Source(a + b, env) == Source(b, Source(a, env).vars)
    decreases |a|, 0
  {
    var name := NameOf(a);
    NameAppend(a, b);
    var after := a[|name| + 1..];
    assert (a + b)[|name| + 1..] == after + b;
    TailClosed(a, |name| + 1);
    assert a[|a| - 1] != '=';
    UnquotedStops(after, "");
    UnquotedAppend(after, b, "");
    var w := Unquoted(after, "");
    SourceAppend(w.rest, b, env[name := w.value]);
  }

  // ---------------------------------------------------------- gateway settings

  datatype Setting = Setting(name: string, value: string, quoted: bool)

  function Line(x: Setting): string {
    x.name + ("=" + Quoted(x))
  }

  function Lines(xs: seq<Setting>): seq<string> {
    seq(|xs|, i requires 0 <= i < |xs| => Line(xs[i]))
  }

  const PREFIX := "OPEN" + "SHELL_"

  /** The settings the gateway needs to select this driver and be reachable from guests. */
  function GatewaySettings(socket: string, tlsDir: string): seq<Setting> {
    [ Setting(PREFIX + "DRIVERS", "applecontainer", false),
      Setting(PREFIX + "COMPUTE_DRIVER_SOCKET", socket, true),
      Setting(PREFIX + "BIND_ADDRESS", "0.0.0.0", false),
      Setting(PREFIX + "ENABLE_MTLS_AUTH", "true", false),
      Setting(PREFIX + "LOCAL_TLS_DIR", tlsDir, true) ]
  }

  function GatewayEnvLines(socket: string, tlsDir: string): seq<string> {
    Lines(GatewaySettings(socket, tlsDir))
  }

  function Assigned(env: map<string, string>, xs: seq<Setting>): map<string, string>
    decreases |xs|
  {
    if xs == [] then env else Assigned(env[xs[0].name := xs[0].value], xs[1..])
  }

  predicate Plain(s: string) {
    forall c <- s :: !Delimiter(c) && !Expands(c) && c != '\'' && c != '\\'
  }

  predicate Proper(x: Setting) {
    IsName(x.name) && if x.quoted then '\0' !in x.value else Plain(x.value)
  }

  lemma {:induction false} PlainReads(s: string, rest: string, value: string)
    requires Plain(s)
    ensures Unquoted(s + rest, value) == Unquoted(rest, value + s)
    decreases |s|
  {
    if s == "" {
      assert s + rest == rest && value + s == value;
    } else {
      assert s[0] in s && (s + rest)[0] == s[0];
      assert (s + rest)[1..] == s[1..] + rest;
      assert Unquoted(s + rest, value) == Unquoted(s[1..] + rest, value + [s[0]]);
      assert forall c <- s[1..] :: c in s;
      PlainReads(s[1..], rest, value + [s[0]]);
      assert value + s == value + [s[0]] + s[1..];
    }
  }

  lemma {:induction false} NameBefore(n: string, rest: string)
    requires AllName(n) && rest != "" && rest[0] == '='
    ensures NameOf(n + rest) == n
    decreases |n|
  {
    if n != "" {
      assert n[0] in n && (n + rest)[0] == n[0];
      assert (n + rest)[1..] == n[1..] + rest;
      assert forall c <- n[1..] :: c in n;
      NameBefore(n[1..], rest);
    } else {
      assert n + rest == rest;
    }
  }

  function Quoted(x: Setting): string {
    if x.quoted then ShellQuote(x.value) else x.value
  }

  lemma QuotedIsOneWord(x: Setting, rest: string)
    requires Proper(x)
    ensures Unquoted(Quoted(x) + ("\n" + rest), "") == Word(x.value, "\n" + rest)
  {
    var end := "\n" + rest;
    if x.quoted { QuotedReads(x.value, end, ""); } else { PlainReads(x.value, end, ""); }
    assert "" + x.value == x.value;
  }

  lemma AssignmentReads(name: string, after: string, env: map<string, string>)
    requires IsName(name) && Unquoted(after, "").Word?
    requires Unquoted(after, "").rest != "" && Unquoted(after, "").rest[0] == '\n'
    ensures Source(name + ("=" + after), env)
         == Source(Unquoted(after, "").rest, env[name := Unquoted(after, "").value])
  {
    NameBefore(name, "=" + after);
    var s := name + ("=" + after);
    assert s[|name| + 1..] == after && s[|name|] == '=' && s[0] == name[0];
    assert NameChar(s[0]);
  }

  /** One line is one assignment of exactly the value it was written for. */
  lemma LineIsSourced(x: Setting, rest: string, env: map<string, string>)
    requires Proper(x)
    ensures Source(Line(x) + ("\n" + rest), env) == Source(rest, env[x.name := x.value])
  {
    var end := "\n" + rest;
    QuotedIsOneWord(x, rest);
    AssignmentReads(x.name, Quoted(x) + end, env);
    assert Line(x) + end == x.name + ("=" + (Quoted(x) + end));
    assert end[1..] == rest;
  }

  lemma {:induction false} LinesAreSourced(xs: seq<Setting>, rest: string, env: map<string, string>)
    requires xs != [] && forall x <- xs :: Proper(x)
    ensures Source(Join(Lines(xs)) + ("\n" + rest), env) == Source(rest, Assigned(env, xs))
    decreases |xs|
  {
    assert Lines(xs)[0] == Line(xs[0]);
    if |xs| == 1 {
      LineIsSourced(xs[0], rest, env);
    } else {
      var more := Join(Lines(xs[1..])) + ("\n" + rest);
      assert Lines(xs)[1..] == Lines(xs[1..]);
      assert Join(Lines(xs)) + ("\n" + rest) == Line(xs[0]) + ("\n" + more);
      LineIsSourced(xs[0], more, env);
      LinesAreSourced(xs[1..], rest, env[xs[0].name := xs[0].value]);
    }
  }

  lemma PrefixNames(rest: string)
    requires AllName(rest)
    ensures IsName(PREFIX + rest)
  {
    assert AllName(PREFIX) && PREFIX[0] == 'O';
    assert (PREFIX + rest)[0] == 'O';
  }

  lemma SocketName() ensures IsName(PREFIX + "COMPUTE_DRIVER_SOCKET") { PrefixNames("COMPUTE_DRIVER_SOCKET"); }
  lemma TlsName() ensures IsName(PREFIX + "LOCAL_TLS_DIR") { PrefixNames("LOCAL_TLS_DIR"); }
  lemma DriversName() ensures IsName(PREFIX + "DRIVERS") { PrefixNames("DRIVERS"); }
  lemma AddressName() ensures IsName(PREFIX + "BIND_ADDRESS") { PrefixNames("BIND_ADDRESS"); }
  lemma MtlsName() ensures IsName(PREFIX + "ENABLE_MTLS_AUTH") { PrefixNames("ENABLE_MTLS_AUTH"); }
  lemma PlainValues() ensures Plain("applecontainer") && Plain("0.0.0.0") && Plain("true") {}

  lemma SettingsAreProper(socket: string, tlsDir: string)
    requires '\0' !in socket && '\0' !in tlsDir
    ensures forall x <- GatewaySettings(socket, tlsDir) :: Proper(x)
  {
    SocketName(); TlsName(); DriversName(); AddressName(); MtlsName();
    PlainValues();
    var xs := GatewaySettings(socket, tlsDir);
    forall i | 0 <= i < |xs| ensures Proper(xs[i]) {
      assert i == 0 || i == 1 || i == 2 || i == 3 || i == 4;
    }
  }

  lemma {:induction false} CommentSkipped(line: string, rest: string)
    requires '\n' !in line
    ensures NextLine(line + ("\n" + rest)) == rest
    decreases |line|
  {
    var s := line + ("\n" + rest);
    if line != "" {
      assert s[1..] == line[1..] + ("\n" + rest);
      CommentSkipped(line[1..], rest);
    } else {
      assert s[1..] == rest;
    }
  }

  lemma MarkerIsComment(m: Markers, rest: string, env: map<string, string>, begin: bool)
    requires Usable(m) && m.begin[0] == '#' && m.end[0] == '#'
    ensures Source((if begin then m.begin else m.end) + ("\n" + rest), env) == Source(rest, env)
  {
    CommentSkipped(if begin then m.begin else m.end, rest);
  }

  /** Sourcing the written block assigns the settings, and nothing else. */
  lemma BlockIsSourced(m: Markers, xs: seq<Setting>, env: map<string, string>)
    requires Usable(m) && m.begin[0] == '#' && m.end[0] == '#'
    requires xs != [] && forall x <- xs :: Proper(x)
    ensures Source(Body(m, Lines(xs)), env) == Env(Assigned(env, xs))
  {
    var tail := m.end + ("\n" + "");
    var middle := Join(Lines(xs)) + ("\n" + tail);
    assert Body(m, Lines(xs)) == m.begin + ("\n" + middle);
    MarkerIsComment(m, middle, env, true);
    LinesAreSourced(xs, tail, env);
    MarkerIsComment(m, "", Assigned(env, xs), false);
  }

  /** The user's own part of the file, and the file that setup writes. */
  ghost function Own(existing: string): string {
    MarkersAreUsable();
    Ready(Remove(MARKERS, existing))
  }

  ghost function Written(existing: string, lines: seq<string>): string {
    MarkersAreUsable();
    Upsert(MARKERS, existing, lines)
  }

  lemma AssignedOne(env: map<string, string>, x: Setting, rest: seq<Setting>)
    ensures Assigned(env, [x] + rest) == Assigned(env[x.name := x.value], rest)
  {
    assert ([x] + rest)[1..] == rest;
  }

  lemma AssignedFive(env: map<string, string>, a: Setting, b: Setting, c: Setting, d: Setting, e: Setting)
    ensures Assigned(env, [a, b, c, d, e])
         == env[a.name := a.value][b.name := b.value][c.name := c.value][d.name := d.value][e.name := e.value]
  {
    AssignedOne(env, a, [b, c, d, e]);
    assert [a] + [b, c, d, e] == [a, b, c, d, e];
    var env1 := env[a.name := a.value];
    AssignedOne(env1, b, [c, d, e]);
    assert [b] + [c, d, e] == [b, c, d, e];
    var env2 := env1[b.name := b.value];
    AssignedOne(env2, c, [d, e]);
    assert [c] + [d, e] == [c, d, e];
    AssignedOne(env2[c.name := c.value], d, [e]);
    assert [d] + [e] == [d, e];
    AssignedOne(env2[c.name := c.value][d.name := d.value], e, []);
    assert [e] + [] == [e];
  }

  /** The five variables, by the driver's names for them. */
  ghost predicate Selects(vars: map<string, string>, env: map<string, string>, socket: string, tlsDir: string) {
    var drivers, sock, bind, mtls, tls :=
      PREFIX + "DRIVERS", PREFIX + "COMPUTE_DRIVER_SOCKET", PREFIX + "BIND_ADDRESS", PREFIX + "ENABLE_MTLS_AUTH", PREFIX + "LOCAL_TLS_DIR";
    && vars.Keys == env.Keys + {drivers, sock, bind, mtls, tls}
    && vars[drivers] == "applecontainer" && vars[sock] == socket && vars[bind] == "0.0.0.0"
    && vars[mtls] == "true" && vars[tls] == tlsDir
    && (forall k <- env :: k !in {drivers, sock, bind, mtls, tls} ==> vars[k] == env[k])
  }

  lemma NamesOfFiveLengths()
    ensures |PREFIX + "DRIVERS"| == 17 && |PREFIX + "COMPUTE_DRIVER_SOCKET"| == 31 && |PREFIX + "BIND_ADDRESS"| == 22
    ensures |PREFIX + "ENABLE_MTLS_AUTH"| == 26 && |PREFIX + "LOCAL_TLS_DIR"| == 23
  {
  }

  /** What the gateway finds: its driver, the socket under the socket's name, the TLS directory
      under the directory's, every other variable as the user has it. */
  lemma SettingsSelect(env: map<string, string>, socket: string, tlsDir: string)
    ensures Selects(Assigned(env, GatewaySettings(socket, tlsDir)), env, socket, tlsDir)
  {
    var xs := GatewaySettings(socket, tlsDir);
    assert xs == [xs[0], xs[1], xs[2], xs[3], xs[4]];
    AssignedFive(env, xs[0], xs[1], xs[2], xs[3], xs[4]);
    NamesOfFiveLengths();
  }

  /** After setup, sourcing gateway.env gives the environment of the user's own lines with
      exactly the five settings assigned: whatever the paths contain, the shell reads back
      the same socket and TLS directory. */
  lemma SetupIsSourced(existing: string, socket: string, tlsDir: string, env: map<string, string>)
    requires '\0' !in socket && '\0' !in tlsDir
    requires LineClosed(Own(existing)) && Source(Own(existing), env).Env?
    ensures Source(Written(existing, GatewayEnvLines(socket, tlsDir)), env)
         == Env(Assigned(Source(Own(existing), env).vars, GatewaySettings(socket, tlsDir)))
    ensures Selects(Source(Written(existing, GatewayEnvLines(socket, tlsDir)), env).vars, Source(Own(existing), env).vars, socket, tlsDir)
  {
    MarkersAreUsable();
    var own := Own(existing);
    var xs := GatewaySettings(socket, tlsDir);
    SettingsAreProper(socket, tlsDir);
    SourceAppend(own, Body(MARKERS, Lines(xs)), env);
    assert MARKERS.begin[0] == "# >>>"[0] && MARKERS.end[0] == "# <<<"[0];
    BlockIsSourced(MARKERS, xs, Source(own, env).vars);
    SettingsSelect(Source(own, env).vars, socket, tlsDir);
  }
}
