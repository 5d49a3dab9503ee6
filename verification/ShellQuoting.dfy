/** Commands shown for copying into a shell: words quoted and joined by spaces
    (frontend/training-dashboard/fields.ts:512-544, 590-593;
    process-domain.ts:106-111, 169-173), read back by the quoting and token rules of
    sections 2.2.2, 2.2.3 and 2.3 of the POSIX.1-2017 Shell Command Language. */
module ShellQuoting {
  import opened Core

  // ---------------------------------------------------------------------------------
  // Writing

  /** The characters either copy of shellQuote leaves bare; one of them adds "=". */
  predicate Bare(c: char, equals: bool) {
    || 'A' <= c <= 'Z' || 'a' <= c <= 'z' || '0' <= c <= '9'
    || c == '_' || c == '.' || c == '/' || c == ',' || c == ':' || c == '+' || c == '-'
    || (equals && c == '=')
  }

  predicate AllBare(s: string, equals: bool) { forall i :: 0 <= i < |s| ==> Bare(s[i], equals) }

  /** replaceAll("'", `'"'"'`) */
  function Escape(s: string): string {
    if s == [] then [] else (if s[0] == '\'' then "'\"'\"'" else [s[0]]) + Escape(s[1..])
  }

  /** shellQuote. */
  function Quote(s: string, equals: bool): string {
    if s != [] && AllBare(s, equals) then s else "'" + Escape(s) + "'"
  }

  /** argv.map(shellQuote).join(" ") */
  function Join(words: seq<string>): string {
    if words == [] then []
    else if |words| == 1 then words[0]
    else Join(words[..|words| - 1]) + " " + words[|words| - 1]
  }

  function Quoted(argv: seq<string>, equals: bool): seq<string> {
    seq(|argv|, i requires 0 <= i < |argv| => Quote(argv[i], equals))
  }

  // ---------------------------------------------------------------------------------
  // Reading

  datatype Mode = Unquoted | Single | Double

  /** Where the reader stands: the word under way, if one has begun, and those done. */
  datatype Reader = Reader(mode: Mode, word: Option<string>, words: seq<string>)

  /** Unquoted characters that do more than stand for themselves: operators, newlines,
      comments, escapes, and all that section 2.6 expands. */
  predicate Active(c: char) { c in "|&;<>()$`\\*?[]#~!{}^%\n" }

  function Extended(r: Reader, c: char): Reader {
    r.(word := Some((if r.word.Some? then r.word.value else "") + [c]))
  }

  function Begun(r: Reader, mode: Mode): Reader {
    r.(mode := mode, word := Some(if r.word.Some? then r.word.value else ""))
  }

  function Ended(r: Reader): Reader {
    if r.word.Some? then r.(word := None, words := r.words + [r.word.value]) else r
  }

  /** One character; None where these sections alone do not say what it means. */
  function Read(r: Reader, c: char): Option<Reader> {
    match r.mode
    case Unquoted =>
      if c == ' ' || c == '\t' then Some(Ended(r))
      else if c == '\'' then Some(Begun(r, Single))
      else if c == '\"' then Some(Begun(r, Double))
      else if Active(c) then None
      else Some(Extended(r, c))
    case Single => if c == '\'' then Some(r.(mode := Unquoted)) else Some(Extended(r, c))
    case Double =>
      if c == '\"' then Some(r.(mode := Unquoted))
      else if c in "$`\\" then None
      else Some(Extended(r, c))
  }

  function Scan(r: Reader, s: string): Option<Reader>
    decreases s
  {
    if s == [] then Some(r)
    else
      var r' := Read(r, s[0]);
      if r'.None? then None else Scan(r'.value, s[1..])
  }

  /** The words of a line, with their quotes removed. */
  function Words(line: string): Option<seq<string>> {
    var r := Scan(Reader(Unquoted, None, []), line);
    if r.None? || r.value.mode != Unquoted then None else Some(Ended(r.value).words)
  }

  // ---------------------------------------------------------------------------------
  // Round trip

  lemma {:induction false} ScanConcat(r: Reader, s: string, t: string)
    ensures Scan(r, s + t) == if Scan(r, s).None? then None else Scan(Scan(r, s).value, t)
    decreases s
  {
    if s == [] {
      assert s + t == t;
    } else {
      assert (s + t)[1..] == s[1..] + t;
      var r' := Read(r, s[0]);
      if r'.Some? { ScanConcat(r'.value, s[1..], t); }
    }
  }

  lemma BareIsPassive(c: char, equals: bool)
    requires Bare(c, equals)
    ensures !Active(c)
  {
  }

  lemma BareIsRead(r: Reader, c: char, equals: bool)
    requires r.mode == Unquoted && Bare(c, equals)
    ensures Read(r, c) == Some(Extended(r, c))
  {
    hide Active;
    BareIsPassive(c, equals);
  }

  lemma {:induction false} ScanBare(r: Reader, s: string, equals: bool)
    requires r.mode == Unquoted && AllBare(s, equals) && s != []
    ensures Scan(r, s) == Some(r.(word := Some((if r.word.Some? then r.word.value else "") + s)))
    decreases s
  {
    hide Bare, Read;
    var r' := Extended(r, s[0]);
    BareIsRead(r, s[0], equals);
    if |s| > 1 {
      ScanBare(r', s[1..], equals);
      assert r'.word.value + s[1..] == (if r.word.Some? then r.word.value else "") + s;
    } else {
      assert s == [s[0]];
    }
  }

  lemma ScanQuoteChar(w: string, words: seq<string>)
    ensures Scan(Reader(Single, Some(w), words), "'\"'\"'") == Some(Reader(Single, Some(w + "'"), words))
  {
    var s := "'\"'\"'";
    var r := Reader(Single, Some(w), words);
    var q := Extended(r.(mode := Double), '\'');
    assert Scan(r, s) == Scan(r.(mode := Unquoted), s[1..]);
    assert Scan(r.(mode := Unquoted), s[1..]) == Scan(r.(mode := Double), s[1..][1..]);
    assert Scan(r.(mode := Double), s[1..][1..]) == Scan(q, s[1..][1..][1..]);
    assert Scan(q, s[1..][1..][1..]) == Scan(q.(mode := Unquoted), s[1..][1..][1..][1..]);
    assert s[1..][1..][1..][1..] == "'";
  }

  lemma {:induction false} ScanEscaped(w: string, words: seq<string>, s: string)
    ensures Scan(Reader(Single, Some(w), words), Escape(s)) == Some(Reader(Single, Some(w + s), words))
    decreases s
  {
    var r := Reader(Single, Some(w), words);
    if s == [] {
      assert w + s == w;
    } else {
      var first := if s[0] == '\'' then "'\"'\"'" else [s[0]];
      ScanConcat(r, first, Escape(s[1..]));
      if s[0] == '\'' {
        ScanQuoteChar(w, words);
      } else {
        assert Scan(r, first) == Scan(Extended(r, s[0]), first[1..]);
      }
      ScanEscaped(w + [s[0]], words, s[1..]);
      assert w + [s[0]] + s[1..] == w + s;
    }
  }

  /** One quoted word is read as the word it quotes. */
  lemma ScanQuoted(words: seq<string>, s: string, equals: bool)
    ensures Scan(Reader(Unquoted, None, words), Quote(s, equals)) == Some(Reader(Unquoted, Some(s), words))
  {
    var r := Reader(Unquoted, None, words);
    if s != [] && AllBare(s, equals) {
      ScanBare(r, s, equals);
      assert "" + s == s;
    } else {
      var open := Reader(Single, Some(""), words);
      assert Scan(r, "'") == Scan(open, "'"[1..]);
      ScanEscaped("", words, s);
      assert "" + s == s;
      var closing := Reader(Single, Some(s), words);
      assert Scan(closing, "'") == Scan(closing.(mode := Unquoted), "'"[1..]);
      ScanConcat(r, "'" + Escape(s), "'");
      ScanConcat(r, "'", Escape(s));
    }
  }

  lemma ScanBlank(word: string, words: seq<string>, more: seq<string>)
    requires more == words + [word]
    ensures Scan(Reader(Unquoted, Some(word), words), " ") == Some(Reader(Unquoted, None, more))
  {
    var between := Reader(Unquoted, None, more);
    assert Scan(Reader(Unquoted, Some(word), words), " ") == Scan(between, " "[1..]) == Some(between);
  }

  lemma {:induction false} ScanJoined(argv: seq<string>, equals: bool)
    requires argv != []
    ensures Scan(Reader(Unquoted, None, []), Join(Quoted(argv, equals)))
      == Some(Reader(Unquoted, Some(argv[|argv| - 1]), argv[..|argv| - 1]))
  {
    hide Read, Scan, Quote;
    var n := |argv| - 1;
    var start := Reader(Unquoted, None, []);
    var quoted := Quoted(argv, equals);
    if n == 0 {
      ScanQuoted([], argv[0], equals);
    } else {
      var init := argv[..n];
      ScanJoined(init, equals);
      assert Quoted(init, equals) == quoted[..n];
      assert init == init[..n - 1] + [init[n - 1]];
      ScanBlank(init[n - 1], init[..n - 1], init);
      ScanQuoted(init, argv[n], equals);
      ScanConcat(start, Join(quoted[..n]) + " ", quoted[n]);
      ScanConcat(start, Join(quoted[..n]), " ");
    }
  }

  /** Reading back a quoted command gives exactly the arguments it was made from: empty
      ones, quotes, blanks, newlines and all. */
  lemma QuotingRoundTrips(argv: seq<string>, equals: bool)
    ensures Words(Join(Quoted(argv, equals))) == Some(argv)
  {
    if argv != [] {
      ScanJoined(argv, equals);
      assert argv == argv[..|argv| - 1] + [argv[|argv| - 1]];
    }
  }

  /** A word is shown as it is exactly when it is not empty and all its characters are bare;
      any other is put between quotes. */
  lemma ShownAsIsIff(s: string, equals: bool)
    ensures Quote(s, equals) == s <==> s != [] && AllBare(s, equals)
    ensures Quote(s, equals) != s ==> Quote(s, equals)[0] == '\''
  {
    if s == [] || !AllBare(s, equals) { EscapeGrows(s); }
  }

  lemma {:induction false} EscapeGrows(s: string)
    ensures |Escape(s)| >= |s|
  {
    if s != [] { EscapeGrows(s[1..]); }
  }

  lemma TheBareCharacters(c: char, equals: bool)
    ensures Bare(c, equals) <==>
      || 'A' <= c <= 'Z' || 'a' <= c <= 'z' || '0' <= c <= '9' || c in "_./,:+-"
      || (equals && c == '=')
  {
  }

  // ---------------------------------------------------------------------------------
  // The command preview

  /** A form field's value: a switch, nothing, or text (a number already printed). */
  datatype Setting = Switch(on: bool) | Unset | Text(text: string)

  datatype Field = Field(key: string, flag: string)

  /** The arguments one field contributes. */
  function Arguments(field: Field, setting: Setting): seq<string> {
    if field.key == "checkpoint" then []
    else
      match setting
      case Switch(on) => if on then [field.flag] else []
      case Unset => []
      case Text(text) => [field.flag, text]
  }

  predicate Given(fields: seq<Field>, values: map<string, Setting>) {
    forall f :: f in fields ==> f.key in values
  }

  function AllArguments(fields: seq<Field>, values: map<string, Setting>): seq<string>
    requires Given(fields, values)
  {
    if fields == [] then []
    else
      var last := fields[|fields| - 1];
      AllArguments(fields[..|fields| - 1], values) + Arguments(last, values[last.key])
  }

  const PROGRAM: seq<string> := ["python", "-m", "server.training_cli", "--run-dir"]

  /** The arguments the preview stands for. */
  function Argv(resume: bool, runDir: string, checkpoint: string, fields: seq<Field>, values: map<string, Setting>)
    : seq<string>
    requires Given(fields, values)
  {
    PROGRAM + [runDir, if resume then "resume" else "init"]
    + (if resume then [checkpoint] else [])
    + AllArguments(fields, values)
  }

  lemma GivenOfBoth(a: seq<Field>, b: seq<Field>, values: map<string, Setting>)
    ensures Given(a + b, values) <==> Given(a, values) && Given(b, values)
  {
    assert forall f :: f in a + b <==> f in a || f in b;
  }

  /** The fields' arguments follow one another in the fields' order. */
  lemma {:induction false} FieldsInOrder(a: seq<Field>, b: seq<Field>, values: map<string, Setting>)
    requires Given(a, values) && Given(b, values)
    ensures Given(a + b, values)
    ensures AllArguments(a + b, values) == AllArguments(a, values) + AllArguments(b, values)
  {
    GivenOfBoth(a, b, values);
    hide Arguments;
    if b == [] {
      assert a + b == a;
    } else {
      var init, last := b[..|b| - 1], b[|b| - 1];
      assert b == init + [last];
      GivenOfBoth(init, [last], values);
      GivenOfBoth(a, init, values);
      hide Given;
      FieldsInOrder(a, init, values);
      assert (a + b)[..|a + b| - 1] == a + init;
    }
  }

  /** A switch shows its flag when it is on, a text its flag and the text; nothing is shown of
      what is unset, nor of the checkpoint, which stands before the fields. */
  lemma OneField(field: Field, setting: Setting)
    ensures Arguments(field, setting)
      == if field.key == "checkpoint" || setting.Unset? || setting == Switch(false) then []
         else [field.flag] + if setting.Text? then [setting.text] else []
  {
  }

  /** The preview stands for the program, the run, the command and, on resume, the checkpoint. */
  lemma ArgvStarts(resume: bool, runDir: string, checkpoint: string, fields: seq<Field>, values: map<string, Setting>)
    requires Given(fields, values)
    ensures Argv(resume, runDir, checkpoint, fields, values)
      == ["python", "-m", "server.training_cli", "--run-dir", runDir]
         + (if resume then ["resume", checkpoint] else ["init"]) + AllArguments(fields, values)
  {
  }

  predicate Word(s: string) { s != [] && AllBare(s, false) }

  /** `parts` are `argv` quoted. */
  ghost predicate Quotes(parts: seq<string>, argv: seq<string>) { parts == Quoted(argv, false) }

  lemma MoreParts(parts: seq<string>, argv: seq<string>, word: string)
    requires Quotes(parts, argv)
    ensures Quotes(parts + [Quote(word, false)], argv + [word])
    ensures Word(word) ==> Quotes(parts + [word], argv + [word])
  {
  }

  lemma ProgramIsPlain()
    ensures forall w :: w in PROGRAM ==> Word(w)
    ensures Word("resume") && Word("init")
  {
  }

  method StartParts(resume: bool, runDir: string) returns (parts: seq<string>)
    ensures Quotes(parts, PROGRAM + [runDir, if resume then "resume" else "init"])
  {
    ProgramIsPlain();
    hide Word, Quotes;
    assert PROGRAM[..0] == [];
    parts := [];
    assert Quotes(parts, PROGRAM[..0]) by { NoParts(); }
    for i := 0 to |PROGRAM|
      invariant Quotes(parts, PROGRAM[..i])
    {
      MoreParts(parts, PROGRAM[..i], PROGRAM[i]);
      assert PROGRAM[..i + 1] == PROGRAM[..i] + [PROGRAM[i]];
      parts := parts + [PROGRAM[i]];
    }
    assert PROGRAM[..|PROGRAM|] == PROGRAM;
    MoreParts(parts, PROGRAM, runDir);
    parts := parts + [Quote(runDir, false)];
    var command := if resume then "resume" else "init";
    MoreParts(parts, PROGRAM + [runDir], command);
    assert PROGRAM + [runDir] + [command] == PROGRAM + [runDir, command];
    parts := parts + [command];
  }

  lemma NoParts()
    ensures Quotes([], [])
  {
  }

  /** commandPreview, whose result a shell reads as exactly the arguments it shows. */
  method CommandPreview(resume: bool, runDir: string, checkpoint: Option<string>,
                        fields: seq<Field>, values: map<string, Setting>)
    returns (preview: Result<string>)
    requires forall f :: f in fields ==> f.key in values && Word(f.flag)
    ensures preview.Rejected? <==> resume && (checkpoint.None? || checkpoint.value == "")
    ensures preview.Ok? ==>
      Words(preview.value)
        == Some(Argv(resume, runDir, if checkpoint.Some? then checkpoint.value else "", fields, values))
  {
    hide Word, Quotes;
    var parts := StartParts(resume, runDir);
    ghost var argv := PROGRAM + [runDir, if resume then "resume" else "init"];
    if resume {
      if checkpoint.None? || checkpoint.value == "" { return Rejected("Checkpoint is required"); }
      MoreParts(parts, argv, checkpoint.value);
      parts := parts + [Quote(checkpoint.value, false)];
      argv := argv + [checkpoint.value];
    }
    ghost var start := argv;
    assert start + [] == start;
    for i := 0 to |fields|
      invariant argv == start + AllArguments(fields[..i], values)
      invariant Quotes(parts, argv)
    {
      var field := fields[i];
      assert fields[..i + 1][..i] == fields[..i];
      ghost var more := Arguments(field, values[field.key]);
      if field.key != "checkpoint" {
        var value := values[field.key];
        match value
        case Switch(on) =>
          if on {
            MoreParts(parts, argv, field.flag);
            parts := parts + [field.flag];
          }
        case Unset =>
        case Text(text) =>
          MoreParts(parts, argv, field.flag);
          MoreParts(parts + [field.flag], argv + [field.flag], text);
          assert argv + [field.flag] + [text] == argv + more;
          parts := parts + [field.flag] + [Quote(text, false)];
      }
      assert argv + [] == argv;
      argv := argv + more;
      assert start + (AllArguments(fields[..i], values) + more) == argv;
    }
    assert fields[..|fields|] == fields;
    PreviewReads(parts, argv);
    preview := Ok(Join(parts));
  }

  lemma PreviewReads(parts: seq<string>, argv: seq<string>)
    requires Quotes(parts, argv)
    ensures Words(Join(parts)) == Some(argv)
  {
    QuotingRoundTrips(argv, false);
  }
}
