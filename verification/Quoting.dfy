/**
 * POSIX word quoting of the rendered shell script, against a reading of the words by sections 2.2.2 and
 * 2.2.3 of the Shell Command Language volume of POSIX.1-2017.
 */
module Quoting {
  import opened Wrappers

  // --- how the shell reads words ------------------------------------------------------------

  type Variables = map<string, string>

  /** Characters that stand for themselves outside quotes. */
  predicate IsPlain(c: char) {
    'a' <= c <= 'z' || 'A' <= c <= 'Z' || '0' <= c <= '9' || c in "-_=./:,"
  }

  predicate IsNameChar(c: char) {
    'a' <= c <= 'z' || 'A' <= c <= 'Z' || '0' <= c <= '9' || c == '_'
  }

  function NameLength(s: string): (n: nat)
    ensures n <= |s| && (forall i :: 0 <= i < n ==> IsNameChar(s[i])) && (n < |s| ==> !IsNameChar(s[n]))
  {
    if |s| > 0 && IsNameChar(s[0]) then 1 + NameLength(s[1..]) else 0
  }

  /** Section 2.2.2: everything up to the closing single quote is literal. */
  function SingleQuoted(s: string): (r: Option<(string, string)>)
    ensures r.Some? ==> |r.value.1| < |s|
  {
    if |s| == 0 then None
    else if s[0] == '\'' then Some(("", s[1..]))
    else
      match SingleQuoted(s[1..])
      case None => None
      case Some((text, rest)) => Some(([s[0]] + text, rest))
  }

  /** Section 2.2.3: literal but for `$NAME`; other uses of dollar, backquote and backslash are not read here. */
  function DoubleQuoted(s: string, vars: Variables): (r: Option<(string, string)>)
    ensures r.Some? ==> |r.value.1| < |s|
    decreases |s|
  {
    if |s| == 0 || s[0] == '`' || s[0] == '\\' then None
    else if s[0] == '"' then Some(("", s[1..]))
    else if s[0] == '$' then
      var n := NameLength(s[1..]);
      if n == 0 || s[1..][..n] !in vars then None
      else
        match DoubleQuoted(s[1..][n..], vars)
        case None => None
        case Some((text, rest)) => Some((vars[s[1..][..n]] + text, rest))
    else
      match DoubleQuoted(s[1..], vars)
      case None => None
      case Some((text, rest)) => Some(([s[0]] + text, rest))
  }

  function Begun(word: Option<string>): string {
    if word.Some? then word.value else ""
  }

  /** The words of a command, from a position inside `word` or between words; absent if not read here. */
  function Words(s: string, word: Option<string>, vars: Variables): Option<seq<string>>
    decreases |s|
  {
    if |s| == 0 then Some(if word.Some? then [word.value] else [])
    else if s[0] == ' ' then
      match Words(s[1..], None, vars)
      case None => None
      case Some(rest) => Some((if word.Some? then [word.value] else []) + rest)
    else if s[0] == '\'' then
      match SingleQuoted(s[1..])
      case None => None
      case Some((text, rest)) => Words(rest, Some(Begun(word) + text), vars)
    else if s[0] == '"' then
      match DoubleQuoted(s[1..], vars)
      case None => None
      case Some((text, rest)) => Words(rest, Some(Begun(word) + text), vars)
    else if IsPlain(s[0]) then Words(s[1..], Some(Begun(word) + [s[0]]), vars)
    else None
  }

  // --- how words are written ----------------------------------------------------------------

  const QUOTE_ESCAPE := "'\"'\"'"

  function EscapedChar(c: char): string {
    if c == '\'' then QUOTE_ESCAPE else [c]
  }

  function Escaped(value: string): string {
    if |value| == 0 then "" else EscapedChar(value[0]) + Escaped(value[1..])
  }

  function PosixLiteral(value: string): string {
    "'" + Escaped(value) + "'"
  }

  function SpaceJoined(words: seq<string>): string {
    if |words| == 0 then ""
    else if |words| == 1 then words[0]
    else words[0] + " " + SpaceJoined(words[1..])
  }

  function Literals(values: seq<string>): seq<string> {
    seq(|values|, i requires 0 <= i < |values| => PosixLiteral(values[i]))
  }

  // --- reading what was written -------------------------------------------------------------

  /** Values without a quote read back from inside the quotes. */
  lemma {:induction false} QuoteFree(value: string, rest: string)
    requires '\'' !in value
    ensures Escaped(value) == value && SingleQuoted(value + "'" + rest) == Some((value, rest))
  {
    if |value| == 0 {
      assert value + "'" + rest == "'" + rest && ("'" + rest)[1..] == rest;
    } else {
      QuoteFree(value[1..], rest);
      assert (value + "'" + rest)[1..] == value[1..] + "'" + rest;
      assert value == [value[0]] + value[1..];
    }
  }

  lemma Regroup(a: string, b: string, c: string)
    ensures (a + b) + c == a + (b + c)
  {
  }

  lemma {:induction false} EscapedConcat(a: string, b: string)
    ensures Escaped(a + b) == Escaped(a) + Escaped(b)
  {
    if |a| == 0 {
      assert a + b == b;
    } else {
      EscapedConcat(a[1..], b);
      assert (a + b)[1..] == a[1..] + b && (a + b)[0] == a[0];
      Regroup(EscapedChar(a[0]), Escaped(a[1..]), Escaped(b));
    }
  }

  lemma {:induction false} FirstQuote(value: string) returns (a: string, b: string)
    requires '\'' in value
    ensures value == a + "'" + b && '\'' !in a
  {
    if value[0] == '\'' {
      a, b := "", value[1..];
    } else {
      assert value == [value[0]] + value[1..];
      a, b := FirstQuote(value[1..]);
      a := [value[0]] + a;
    }
  }

  /** One quoted stretch is read up to its closing quote. */
  lemma StretchReads(a: string, rest: string, word: Option<string>, vars: Variables)
    requires '\'' !in a
    ensures Words("'" + a + "'" + rest, word, vars) == Words(rest, Some(Begun(word) + a), vars)
  {
    var s := "'" + a + "'" + rest;
    assert s[1..] == a + "'" + rest;
    QuoteFree(a, rest);
  }

  lemma DoubleQuotedQuote(rest: string, vars: Variables)
    ensures DoubleQuoted("'\"" + rest, vars) == Some(("'", rest))
  {
    var s := "'\"" + rest;
    assert s[1..] == "\"" + rest && s[1..][1..] == rest;
    assert DoubleQuoted(s[1..], vars) == Some(("", rest));
    assert [s[0]] + "" == "'";
  }

  /** A single quote in double quotes is read as itself. */
  lemma QuotedQuoteReads(rest: string, word: Option<string>, vars: Variables)
    ensures Words("\"'\"" + rest, word, vars) == Words(rest, Some(Begun(word) + "'"), vars)
  {
    var s := "\"'\"" + rest;
    assert s[1..] == "'\"" + rest;
    DoubleQuotedQuote(rest, vars);
  }

  lemma EscapedQuote(b: string)
    ensures Escaped("'" + b) == QUOTE_ESCAPE + Escaped(b)
  {
    assert ("'" + b)[1..] == b;
  }

  lemma EscapedAround(a: string, b: string)
    requires '\'' !in a
    ensures Escaped(a + "'" + b) == a + (QUOTE_ESCAPE + Escaped(b))
  {
    hide Escaped;
    QuoteFree(a, "");
    EscapedConcat(a, "'" + b);
    EscapedQuote(b);
    Regroup(a, "'", b);
  }

  /** Moving the quotes of a stretch outwards. */
  lemma Requoted(q: string, m: string, a: string, b: string)
    ensures q + (a + (q + (m + q) + b)) + q == q + a + q + (m + (q + b + q))
  {
  }

  lemma EscapeParts(q: string, m: string)
    requires q == "'" && m == "\"'\""
    ensures QUOTE_ESCAPE == q + (m + q)
  {
  }

  lemma LiteralSplits(a: string, b: string)
    requires '\'' !in a
    ensures PosixLiteral(a + "'" + b) == "'" + a + "'" + ("\"'\"" + PosixLiteral(b))
  {
    hide Escaped;
    EscapedAround(a, b);
    EscapeParts("'", "\"'\"");
    Requoted("'", "\"'\"", a, Escaped(b));
  }

  /** A value with a quote is read stretch by stretch. */
  lemma SplitLiteralReads(a: string, b: string, rest: string, word: Option<string>, vars: Variables)
    requires '\'' !in a
    ensures Words(PosixLiteral(a + "'" + b) + rest, word, vars) ==
            Words(PosixLiteral(b) + rest, Some(Begun(word) + a + "'"), vars)
  {
    hide Words, PosixLiteral;
    LiteralSplits(a, b);
    var more := PosixLiteral(b) + rest;
    Regroup("'" + a + "'", "\"'\"" + PosixLiteral(b), rest);
    Regroup("\"'\"", PosixLiteral(b), rest);
    StretchReads(a, "\"'\"" + more, word, vars);
    QuotedQuoteReads(more, Some(Begun(word) + a), vars);
  }

  lemma QuoteFreeLiteral(value: string)
    requires '\'' !in value
    ensures PosixLiteral(value) == "'" + value + "'"
  {
    QuoteFree(value, "");
  }

  /** A quoted value is read as the value, whatever surrounds it. */
  lemma {:induction false} LiteralReads(value: string, rest: string, word: Option<string>, vars: Variables)
    ensures Words(PosixLiteral(value) + rest, word, vars) == Words(rest, Some(Begun(word) + value), vars)
    decreases |value|
  {
    hide Words, PosixLiteral;
    if '\'' !in value {
      QuoteFreeLiteral(value);
      StretchReads(value, rest, word, vars);
    } else {
      var a, b := FirstQuote(value);
      SplitLiteralReads(a, b, rest, word, vars);
      LiteralReads(b, rest, Some(Begun(word) + a + "'"), vars);
      Regroup(Begun(word), a + "'", b);
      Regroup(Begun(word), a, "'");
    }
  }

  /** Text that is read as exactly one word wherever it stands between blanks. */
  ghost predicate ReadsAs(text: string, value: string, vars: Variables) {
    forall rest :: Words(text + rest, None, vars) == Words(rest, Some(value), vars)
  }

  lemma LiteralReadsAs(value: string, vars: Variables)
    ensures ReadsAs(PosixLiteral(value), value, vars)
  {
    forall rest ensures Words(PosixLiteral(value) + rest, None, vars) == Words(rest, Some(value), vars) {
      LiteralReads(value, rest, None, vars);
      assert "" + value == value;
    }
  }

  /** Words written with single blanks between them are read as their values. */
  lemma {:induction false} JoinedReads(texts: seq<string>, values: seq<string>, vars: Variables)
    requires |texts| == |values| && forall i :: 0 <= i < |texts| ==> ReadsAs(texts[i], values[i], vars)
    ensures Words(SpaceJoined(texts), None, vars) == Some(values)
  {
    if |texts| == 1 {
      assert texts[0] + "" == texts[0] && values == [values[0]];
      assert Words("", Some(values[0]), vars) == Some([values[0]]);
    } else if |texts| > 1 {
      var rest := SpaceJoined(texts[1..]);
      JoinedReads(texts[1..], values[1..], vars);
      assert SpaceJoined(texts) == texts[0] + (" " + rest);
      assert (" " + rest)[1..] == rest;
      assert values == [values[0]] + values[1..];
    }
  }

  /** Any list of strings, quoted and joined by blanks, is read as exactly that list. */
  lemma LiteralsReadBack(values: seq<string>, vars: Variables)
    ensures Words(SpaceJoined(Literals(values)), None, vars) == Some(values)
  {
    forall i | 0 <= i < |values| ensures ReadsAs(Literals(values)[i], values[i], vars) {
      LiteralReadsAs(values[i], vars);
    }
    JoinedReads(Literals(values), values, vars);
  }

  // --- the commands of the rendered script --------------------------------------------------

  datatype Descriptor = Descriptor(kubectl: string, environment: seq<(string, string)>, context: string)

  datatype Target = Target(namespace: string, pod: string, uid: string, container: string, program: string)

  const KUBECTL_VARIABLE := "K10S_KUBECTL"
  const KUBECTL_WORD := "\"$K10S_KUBECTL\""
  const UID_QUERY := "jsonpath={.metadata.uid}"

  /** The assignment the script starts with. */
  function AssignmentText(d: Descriptor): string {
    "K10S_KUBECTL=" + PosixLiteral(d.kubectl)
  }

  function Assignments(environment: seq<(string, string)>): seq<string> {
    seq(|environment|, i requires 0 <= i < |environment| => environment[i].0 + "=" + environment[i].1)
  }

  /** A command under exactly the given environment. */
  function CommandText(environment: seq<(string, string)>, words: seq<string>): string {
    SpaceJoined(["env", "-i"]) + (" " + (SpaceJoined(Literals(Assignments(environment))) + (" " + SpaceJoined(words))))
  }

  /** The command that looks a field of the Pod up; the script asks for `UID_QUERY`. */
  function LookupText(d: Descriptor, t: Target, query: string): string {
    CommandText(d.environment,
      [KUBECTL_WORD, "--context", PosixLiteral(d.context), "--namespace", PosixLiteral(t.namespace),
       "get", "pod", PosixLiteral(t.pod), "-o", PosixLiteral(query)])
  }

  /** The command that runs the shell. */
  function ExecText(d: Descriptor, t: Target): string {
    CommandText(d.environment,
      [KUBECTL_WORD, "--context", PosixLiteral(d.context), "--namespace", PosixLiteral(t.namespace),
       "exec", "-it", PosixLiteral(t.pod), "--container", PosixLiteral(t.container), "--", PosixLiteral(t.program)])
  }

  lemma WordThen(text: string, value: string, tail: string, vars: Variables)
    requires ReadsAs(text, value, vars)
    ensures Words(text + (" " + tail), None, vars) ==
            match Words(tail, None, vars) case None => None case Some(more) => Some([value] + more)
  {
    assert (" " + tail)[1..] == tail;
  }

  lemma JoinedHead(texts: seq<string>, rest: string)
    requires |texts| > 1
    ensures SpaceJoined(texts) + (" " + rest) == texts[0] + (" " + (SpaceJoined(texts[1..]) + (" " + rest)))
  {
  }

  lemma HeadBack(values: seq<string>, more: Option<seq<string>>)
    requires |values| > 0
    ensures more.Some? ==> [values[0]] + (values[1..] + more.value) == values + more.value
  {
  }

  /** Words with a blank and more text behind them. */
  lemma {:induction false} JoinedThen(texts: seq<string>, values: seq<string>, rest: string, vars: Variables)
    requires |texts| == |values| && forall i :: 0 <= i < |texts| ==> ReadsAs(texts[i], values[i], vars)
    ensures Words(SpaceJoined(texts) + (" " + rest), None, vars) ==
            match Words(rest, None, vars) case None => None case Some(more) => Some(values + more)
  {
    if |texts| == 0 {
      assert SpaceJoined(texts) + (" " + rest) == " " + rest && (" " + rest)[1..] == rest;
      assert values == [];
    } else if |texts| == 1 {
      WordThen(texts[0], values[0], rest, vars);
      assert values == [values[0]];
    } else {
      JoinedThen(texts[1..], values[1..], rest, vars);
      JoinedHead(texts, rest);
      WordThen(texts[0], values[0], SpaceJoined(texts[1..]) + (" " + rest), vars);
      HeadBack(values, Words(rest, None, vars));
    }
  }

  lemma {:induction false} PlainFrom(word: string, rest: string, begun: string, vars: Variables)
    requires forall i :: 0 <= i < |word| ==> IsPlain(word[i])
    ensures Words(word + rest, Some(begun), vars) == Words(rest, Some(begun + word), vars)
  {
    if |word| == 0 {
      assert word + rest == rest && begun + word == begun;
    } else {
      PlainFrom(word[1..], rest, begun + [word[0]], vars);
      assert (word + rest)[1..] == word[1..] + rest;
      assert begun + [word[0]] + word[1..] == begun + word;
    }
  }

  lemma PlainFirst(word: string, rest: string, vars: Variables)
    requires |word| > 0 && IsPlain(word[0])
    ensures Words(word + rest, None, vars) == Words(word[1..] + rest, Some([word[0]]), vars)
  {
    assert (word + rest)[1..] == word[1..] + rest;
    assert "" + [word[0]] == [word[0]];
  }

  lemma PlainReadsAs(word: string, vars: Variables)
    requires |word| > 0 && forall i :: 0 <= i < |word| ==> IsPlain(word[i])
    ensures ReadsAs(word, word, vars)
  {
    forall rest ensures Words(word + rest, None, vars) == Words(rest, Some(word), vars) {
      PlainFirst(word, rest, vars);
      PlainFrom(word[1..], rest, [word[0]], vars);
      assert [word[0]] + word[1..] == word;
    }
  }

  lemma VariableExpands(rest: string, kubectl: string, vars: Variables)
    requires KUBECTL_VARIABLE in vars && vars[KUBECTL_VARIABLE] == kubectl
    ensures DoubleQuoted("$K10S_KUBECTL\"" + rest, vars) == Some((kubectl, rest))
  {
    var s := "$K10S_KUBECTL\"" + rest;
    var name := s[1..];
    assert name == KUBECTL_VARIABLE + ("\"" + rest);
    NameEnds(name);
    assert name[..12] == KUBECTL_VARIABLE && name[12..] == "\"" + rest && ("\"" + rest)[1..] == rest;
    assert DoubleQuoted(name[12..], vars) == Some(("", rest));
    assert kubectl + "" == kubectl;
  }

  /** What follows the first character of a text and more. */
  lemma TailThen(text: string, tail: string, rest: string)
    requires |text| > 0 && text[1..] == tail
    ensures (text + rest)[0] == text[0] && (text + rest)[1..] == tail + rest
  {
  }

  lemma QuoteOpens(s: string, text: string, rest: string, vars: Variables)
    requires |s| > 0 && s[0] == '"' && DoubleQuoted(s[1..], vars) == Some((text, rest))
    ensures Words(s, None, vars) == Words(rest, Some(text), vars)
  {
    hide DoubleQuoted;
    assert "" + text == text;
  }

  /** The variable in double quotes is read as its value, as one word. */
  lemma KubectlReadsAs(kubectl: string, vars: Variables)
    requires KUBECTL_VARIABLE in vars && vars[KUBECTL_VARIABLE] == kubectl
    ensures ReadsAs(KUBECTL_WORD, kubectl, vars)
  {
    hide DoubleQuoted, Words;
    forall rest ensures Words(KUBECTL_WORD + rest, None, vars) == Words(rest, Some(kubectl), vars) {
      TailThen(KUBECTL_WORD, "$K10S_KUBECTL\"", rest);
      VariableExpands(rest, kubectl, vars);
      QuoteOpens(KUBECTL_WORD + rest, kubectl, rest, vars);
    }
  }

  lemma NameEnds(name: string)
    requires |name| > 12 && name[..12] == KUBECTL_VARIABLE && name[12] == '"'
    ensures NameLength(name) == 12
  {
    var n := NameLength(name);
    assert forall i :: 0 <= i < 12 ==> name[i] == KUBECTL_VARIABLE[i] && IsNameChar(KUBECTL_VARIABLE[i]);
    assert !IsNameChar(name[12]);
  }

  /** A command under a clean environment is read as `env -i`, the assignments, and its own words. */
  lemma CommandReads(environment: seq<(string, string)>, texts: seq<string>, values: seq<string>, vars: Variables)
    requires |texts| == |values| && forall i :: 0 <= i < |texts| ==> ReadsAs(texts[i], values[i], vars)
    ensures Words(CommandText(environment, texts), None, vars) == Some(["env", "-i"] + (Assignments(environment) + values))
  {
    var assignments := Assignments(environment);
    JoinedReads(texts, values, vars);
    forall i | 0 <= i < |assignments| ensures ReadsAs(Literals(assignments)[i], assignments[i], vars) {
      LiteralReadsAs(assignments[i], vars);
    }
    JoinedThen(Literals(assignments), assignments, SpaceJoined(texts), vars);
    PlainReadsAs("env", vars);
    PlainReadsAs("-i", vars);
    JoinedThen(["env", "-i"], ["env", "-i"], SpaceJoined(Literals(assignments)) + (" " + SpaceJoined(texts)), vars);
  }

  /** The script assigns the kubectl path itself, whatever characters it has. */
  lemma AssignmentReads(d: Descriptor, vars: Variables)
    ensures Words(AssignmentText(d), None, vars) == Some(["K10S_KUBECTL=" + d.kubectl])
  {
    PlainReadsAs("K10S_KUBECTL=", vars);
    LiteralReads(d.kubectl, "", Some("K10S_KUBECTL="), vars);
    assert AssignmentText(d) == "K10S_KUBECTL=" + (PosixLiteral(d.kubectl) + "");
  }

  /** The words of the command that runs the shell. */
  lemma ExecReads(d: Descriptor, t: Target, vars: Variables)
    requires KUBECTL_VARIABLE in vars && vars[KUBECTL_VARIABLE] == d.kubectl
    ensures Words(ExecText(d, t), None, vars) == Some(["env", "-i"] + (Assignments(d.environment) +
              [d.kubectl, "--context", d.context, "--namespace", t.namespace, "exec", "-it", t.pod,
               "--container", t.container, "--", t.program]))
  {
    KubectlReadsAs(d.kubectl, vars);
    PlainReadsAs("--context", vars);
    LiteralReadsAs(d.context, vars);
    PlainReadsAs("--namespace", vars);
    LiteralReadsAs(t.namespace, vars);
    PlainReadsAs("exec", vars);
    PlainReadsAs("-it", vars);
    LiteralReadsAs(t.pod, vars);
    PlainReadsAs("--container", vars);
    LiteralReadsAs(t.container, vars);
    PlainReadsAs("--", vars);
    LiteralReadsAs(t.program, vars);
    CommandReads(d.environment,
      [KUBECTL_WORD, "--context", PosixLiteral(d.context), "--namespace", PosixLiteral(t.namespace),
       "exec", "-it", PosixLiteral(t.pod), "--container", PosixLiteral(t.container), "--", PosixLiteral(t.program)],
      [d.kubectl, "--context", d.context, "--namespace", t.namespace, "exec", "-it", t.pod,
       "--container", t.container, "--", t.program], vars);
  }

  /** The words of the lookup. */
  lemma LookupReads(d: Descriptor, t: Target, query: string, vars: Variables)
    requires KUBECTL_VARIABLE in vars && vars[KUBECTL_VARIABLE] == d.kubectl
    ensures Words(LookupText(d, t, query), None, vars) == Some(["env", "-i"] + (Assignments(d.environment) +
              [d.kubectl, "--context", d.context, "--namespace", t.namespace, "get", "pod", t.pod, "-o", query]))
  {
    KubectlReadsAs(d.kubectl, vars);
    PlainReadsAs("--context", vars);
    LiteralReadsAs(d.context, vars);
    PlainReadsAs("--namespace", vars);
    LiteralReadsAs(t.namespace, vars);
    PlainReadsAs("get", vars);
    PlainReadsAs("pod", vars);
    LiteralReadsAs(t.pod, vars);
    PlainReadsAs("-o", vars);
    LiteralReadsAs(query, vars);
    CommandReads(d.environment,
      [KUBECTL_WORD, "--context", PosixLiteral(d.context), "--namespace", PosixLiteral(t.namespace),
       "get", "pod", PosixLiteral(t.pod), "-o", PosixLiteral(query)],
      [d.kubectl, "--context", d.context, "--namespace", t.namespace, "get", "pod", t.pod, "-o", query], vars);
  }

  // --- what `env` makes of the words --------------------------------------------------------

  /** An environment and a command run in it. */
  datatype Invocation = Invocation(environment: seq<(string, string)>, command: seq<string>)

  function BeforeEquals(word: string): (n: nat)
    ensures n <= |word| && '=' !in word[..n] && (n < |word| ==> word[n] == '=')
  {
    if |word| == 0 || word[0] == '=' then 0
    else
      var n := BeforeEquals(word[1..]);
      assert word[..n + 1] == [word[0]] + word[1..][..n];
      n + 1
  }

  /** Leading operands with an equals sign are assignments; the rest is the command. */
  function OperandsRead(words: seq<string>): Invocation {
    if |words| == 0 || '=' !in words[0] then Invocation([], words)
    else
      var n, rest := BeforeEquals(words[0]), OperandsRead(words[1..]);
      Invocation([(words[0][..n], if n < |words[0]| then words[0][n + 1..] else "")] + rest.environment, rest.command)
  }

  /** The `env` utility of the POSIX.1-2017 XCU volume under `-i`; an operand must not look like an option. */
  function EnvReads(words: seq<string>): Option<Invocation> {
    if |words| < 3 || words[..2] != ["env", "-i"] || words[2] == "" || words[2][0] == '-' then None
    else Some(OperandsRead(words[2..]))
  }

  /** What a command line under `env -i` runs. */
  ghost predicate Runs(text: string, vars: Variables, run: Invocation) {
    exists words :: Words(text, None, vars) == Some(words) && EnvReads(words) == Some(run)
  }

  /** An environment of at least one variable, named as variables are. */
  predicate Named(environment: seq<(string, string)>) {
    |environment| > 0 && forall v :: v in environment ==> v.0 != "" && v.0[0] != '-' && '=' !in v.0
  }

  lemma EqualsFound(name: string, word: string)
    requires '=' !in name && |name| < |word| && word[..|name|] == name && word[|name|] == '='
    ensures BeforeEquals(word) == |name|
  {
    var n := BeforeEquals(word);
    forall i | 0 <= i < n ensures word[i] != '=' {
      assert word[..n][i] == word[i];
    }
    forall i | 0 <= i < |name| ensures word[i] != '=' {
      assert word[..|name|][i] == word[i];
    }
  }

  lemma AssignmentSplits(name: string, sep: string, value: string)
    requires |sep| == 1 && sep[0] == '='
    ensures var word := name + sep + value;
            |name| < |word| && word[..|name|] == name && word[|name|] == '=' && word[|name| + 1..] == value
  {
  }

  lemma OperandRead(name: string, value: string, operands: seq<string>)
    requires '=' !in name && |operands| > 0 && operands[0] == name + "=" + value
    ensures OperandsRead(operands) ==
            Invocation([(name, value)] + OperandsRead(operands[1..]).environment, OperandsRead(operands[1..]).command)
  {
    hide BeforeEquals;
    AssignmentSplits(name, "=", value);
    EqualsFound(name, operands[0]);
    assert operands[0][|name|] in operands[0];
  }

  lemma {:induction false} AssignmentsRead(environment: seq<(string, string)>, words: seq<string>)
    requires forall v :: v in environment ==> '=' !in v.0
    ensures OperandsRead(Assignments(environment) + words) ==
            Invocation(environment + OperandsRead(words).environment, OperandsRead(words).command)
  {
    hide OperandsRead;
    var operands := Assignments(environment) + words;
    if |environment| == 0 {
      assert operands == words;
      assert environment + OperandsRead(words).environment == OperandsRead(words).environment;
    } else {
      var rest := environment[1..];
      AssignmentsRead(rest, words);
      OperandRead(environment[0].0, environment[0].1, operands);
      assert operands[1..] == Assignments(rest) + words;
      assert environment + OperandsRead(words).environment ==
             [(environment[0].0, environment[0].1)] + (rest + OperandsRead(words).environment);
    }
  }

  /** The words of a command under a clean environment run it exactly when its first word has no equals sign. */
  lemma CommandRuns(environment: seq<(string, string)>, command: seq<string>)
    requires Named(environment) && |command| > 0
    ensures EnvReads(["env", "-i"] + (Assignments(environment) + command)) == Some(Invocation(environment, command))
            <==> '=' !in command[0]
  {
    var operands := Assignments(environment) + command;
    var words := ["env", "-i"] + operands;
    assert words[..2] == ["env", "-i"] && words[2..] == operands;
    assert environment[0] in environment;
    assert words[2] == environment[0].0 + "=" + environment[0].1;
    AssignmentsRead(environment, command);
    assert environment + [] == environment;
  }

  /** The lookup runs the original kubectl, arguments and environment exactly when the path has no equals sign. */
  lemma LookupRunsIff(d: Descriptor, t: Target, query: string, vars: Variables)
    requires KUBECTL_VARIABLE in vars && vars[KUBECTL_VARIABLE] == d.kubectl && Named(d.environment)
    ensures Runs(LookupText(d, t, query), vars, Invocation(d.environment,
              [d.kubectl, "--context", d.context, "--namespace", t.namespace, "get", "pod", t.pod, "-o", query]))
            <==> '=' !in d.kubectl
  {
    LookupReads(d, t, query, vars);
    CommandRuns(d.environment,
      [d.kubectl, "--context", d.context, "--namespace", t.namespace, "get", "pod", t.pod, "-o", query]);
  }

  /** So does the shell itself. */
  lemma ExecRunsIff(d: Descriptor, t: Target, vars: Variables)
    requires KUBECTL_VARIABLE in vars && vars[KUBECTL_VARIABLE] == d.kubectl && Named(d.environment)
    ensures Runs(ExecText(d, t), vars, Invocation(d.environment,
              [d.kubectl, "--context", d.context, "--namespace", t.namespace, "exec", "-it", t.pod,
               "--container", t.container, "--", t.program]))
            <==> '=' !in d.kubectl
  {
    ExecReads(d, t, vars);
    CommandRuns(d.environment,
      [d.kubectl, "--context", d.context, "--namespace", t.namespace, "exec", "-it", t.pod,
       "--container", t.container, "--", t.program]);
  }

  /** A path with an equals sign becomes one more variable, and what follows it is run instead. */
  lemma PathTakenForVariable(environment: seq<(string, string)>, kubectl: string, rest: seq<string>)
    requires Named(environment) && '=' in kubectl && |rest| > 0 && '=' !in rest[0]
    ensures exists run :: EnvReads(["env", "-i"] + (Assignments(environment) + ([kubectl] + rest))) == Some(run)
              && run.command == rest && |run.environment| == |environment| + 1 && run.environment[..|environment|] == environment
  {
    var command := [kubectl] + rest;
    var operands := Assignments(environment) + command;
    var words := ["env", "-i"] + operands;
    assert words[..2] == ["env", "-i"] && words[2..] == operands;
    assert environment[0] in environment;
    assert words[2] == environment[0].0 + "=" + environment[0].1;
    AssignmentsRead(environment, command);
    assert command[1..] == rest;
    var run := OperandsRead(operands);
    assert OperandsRead(rest) == Invocation([], rest);
    assert run.environment[..|environment|] == environment;
  }
}
