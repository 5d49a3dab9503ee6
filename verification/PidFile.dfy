/** The PID file's text: what is written and what is read back
    (server/training_control/process_inspection.py:102-173). Bytes are characters below
    256; the file system itself is not part of this model. */
module PidFile {
  import opened Core
  import opened Decimal

  const MAX_BYTES: nat := 64

  /** The whitespace str.strip removes from ASCII text. */
  predicate Blank(c: char) {
    c == ' ' || 9 <= c as int <= 13 || 28 <= c as int <= 31
  }

  function StripLeft(s: string): string {
    if s != [] && Blank(s[0]) then StripLeft(s[1..]) else s
  }

  function StripRight(s: string): string {
    if s != [] && Blank(s[|s| - 1]) then StripRight(s[..|s| - 1]) else s
  }

  function Strip(s: string): string { StripRight(StripLeft(s)) }

  predicate IsDigit(c: char) { '0' <= c <= '9' }

  /** The digits of a numeral int() accepts: single underscores may stand between them. */
  function Plain(s: string): Option<string> {
    if s == [] then None
    else
      var last := s[|s| - 1];
      var rest := s[..|s| - 1];
      if !IsDigit(last) then None
      else if rest == [] then Some([last])
      else
        var before := Plain(if rest[|rest| - 1] == '_' then rest[..|rest| - 1] else rest);
        if before.Some? then Some(before.value + [last]) else None
  }

  lemma {:induction false} PlainIsDigits(s: string)
    ensures Plain(s).Some? ==> AllDigits(Plain(s).value, map[])
  {
    if s != [] && |s| > 1 {
      var rest := s[..|s| - 1];
      PlainIsDigits(if rest[|rest| - 1] == '_' then rest[..|rest| - 1] else rest);
    }
  }

  /** int(text) for ASCII text already stripped. */
  function ParseInt(s: string): Option<int> {
    var signed := s != [] && (s[0] == '+' || s[0] == '-');
    var digits := Plain(if signed then s[1..] else s);
    if digits.None? then None
    else
      PlainIsDigits(if signed then s[1..] else s);
      var n := Value(digits.value, map[]);
      Some(if signed && s[0] == '-' then -(n as int) else n as int)
  }

  /** read_training_pid on a file that could be read: anything malformed is no PID. */
  function ReadPid(content: string): (pid: Option<nat>)
    ensures pid.Some? ==> pid.value > 0
  {
    if |content| > MAX_BYTES then None
    else if exists i :: 0 <= i < |content| && content[i] as int > 127 then None
    else
      var n := ParseInt(Strip(content));
      if n.Some? && n.value > 0 then Some(n.value) else None
  }

  predicate AllBlank(s: string) { forall i :: 0 <= i < |s| ==> Blank(s[i]) }

  lemma {:induction false} StripsBlanks(left: string, digits: string, right: string)
    requires AllBlank(left) && AllBlank(right)
    requires digits != [] && !Blank(digits[0]) && !Blank(digits[|digits| - 1])
    ensures Strip(left + digits + right) == digits
  {
    StripsLeft(left, digits + right);
    assert left + digits + right == left + (digits + right);
    assert (digits + right)[0] == digits[0];
    StripsRight(digits, right);
  }

  lemma {:induction false} StripsLeft(left: string, s: string)
    requires AllBlank(left) && s != [] && !Blank(s[0])
    ensures StripLeft(left + s) == s
  {
    if left == [] {
      assert left + s == s;
    } else {
      StripsLeft(left[1..], s);
      assert (left + s)[1..] == left[1..] + s;
    }
  }

  lemma {:induction false} StripsRight(s: string, right: string)
    requires AllBlank(right) && s != [] && !Blank(s[|s| - 1])
    ensures StripRight(s + right) == s
  {
    if right == [] {
      assert s + right == s;
    } else {
      StripsRight(s, right[..|right| - 1]);
      assert (s + right)[..|s + right| - 1] == s + right[..|right| - 1];
    }
  }

  /** A file names a PID exactly when it is at most 64 ASCII characters of which int() makes a
      positive number; a positive numeral among blanks is such a file, and names its value. */
  lemma ReadPidIff(content: string, left: string, digits: string, right: string)
    ensures ReadPid(content).Some? <==>
      && |content| <= 64 && (forall i :: 0 <= i < |content| ==> content[i] as int <= 127)
      && ParseInt(Strip(content)).Some? && ParseInt(Strip(content)).value > 0
    ensures ReadPid(content).Some? ==> Some(ReadPid(content).value as int) == ParseInt(Strip(content))
    ensures AllBlank(left) && AllBlank(right) && digits != [] && AllDigits(digits, map[])
            && |left + digits + right| <= 64 && Value(digits, map[]) > 0 ==>
      ReadPid(left + digits + right) == Some(Value(digits, map[]))
  {
    if AllBlank(left) && AllBlank(right) && digits != [] && AllDigits(digits, map[]) {
      assert DigitValue(digits[0], map[]).Some? && DigitValue(digits[|digits| - 1], map[]).Some?;
      StripsBlanks(left, digits, right);
      DigitsArePlain(digits);
      PaddedIsAscii(left, digits, right);
      hide Strip, Plain, Value;
    }
  }

  lemma PaddedIsAscii(left: string, digits: string, right: string)
    requires AllBlank(left) && AllBlank(right) && AllDigits(digits, map[])
    ensures var content := left + digits + right;
      forall i :: 0 <= i < |content| ==> content[i] as int <= 127
  {
    var content := left + digits + right;
    forall i | 0 <= i < |content| ensures content[i] as int <= 127 {
      if |left| <= i < |left| + |digits| {
        assert DigitValue(digits[i - |left|], map[]).Some?;
      } else {
        assert Blank(content[i]) by {
          assert content[i] == if i < |left| then left[i] else right[i - |left| - |digits|];
        }
      }
    }
  }

  function Payload(pid: nat): string { Digits(pid) + "\n" }

  /** The write loop: each call to write takes some of what is left. */
  method WritePayload(payload: string) returns (written: string)
    ensures written == payload
  {
    written := "";
    var offset := 0;
    while offset < |payload|
      invariant offset <= |payload| && written == payload[..offset]
    {
      var count: nat :| 0 < count <= |payload| - offset;
      written := written + payload[offset..][..count];
      offset := offset + count;
    }
  }

  lemma {:induction false} DigitsArePlain(s: string)
    requires s != [] && AllDigits(s, map[])
    ensures Plain(s) == Some(s)
  {
    var init := s[..|s| - 1];
    assert s == init + [s[|s| - 1]];
    assert DigitValue(s[|s| - 1], map[]).Some?;
    if init != [] {
      AllDigitsOfPrefix(s, |s| - 1, map[]);
      assert DigitValue(init[|init| - 1], map[]).Some?;
      DigitsArePlain(init);
    }
  }

  lemma StripsToDigits(digits: string)
    requires digits != [] && AllDigits(digits, map[])
    ensures Strip(digits + "\n") == digits
  {
    var content := digits + "\n";
    assert DigitValue(digits[0], map[]).Some? && DigitValue(digits[|digits| - 1], map[]).Some?;
    assert content[..|digits|] == digits;
    assert StripLeft(content) == content && content[|content| - 1] == '\n';
    assert StripRight(content) == StripRight(digits) == digits;
  }

  /** What write_training_pid writes is what read_training_pid reads, up to the longest
      file it takes for one. */
  lemma WrittenPidIsRead(pid: nat)
    requires pid > 0
    ensures ReadPid(Payload(pid)) == if |Digits(pid)| < MAX_BYTES then Some(pid) else None
  {
    var digits, content := Digits(pid), Payload(pid);
    DigitsAreDigits(pid, map[]);
    StripsToDigits(digits);
    hide Digits, Strip;
    DigitsArePlain(digits);
    assert DigitValue(digits[0], map[]).Some?;
    assert ParseInt(digits) == Some(pid);
    forall i | 0 <= i < |content| ensures content[i] as int <= 127 {
      if i < |digits| { assert DigitValue(digits[i], map[]).Some?; }
    }
  }
}
