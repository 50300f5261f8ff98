/**
 * The movement-command line protocol spoken over the serial link to the
 * robot's transmitter: one ASCII line `<code><magnitude>\r\n` per command,
 * with code F (forward), B (backward), L (left), R (right) or S (stop).
 *
 * Two handlers build frames: `clicked` (a direction radio button and a step
 * count, scaled by a factor) and the arrow handlers (`key` and the four
 * `press_*` buttons, which send the stored factor text as it is).
 */
module Protocol {
  import opened Wrappers
  import opened PyText

  const CRLF: string := "\r\n"

  /** The direction letters a frame may start with. */
  const Codes: string := "FBLRS"

  /** Radio values 1..4 choose F, B, L, R; any other value (none chosen is 0) means S. */
  function SelectionCode(selection: int): (c: char)
    ensures c in Codes
  {
    if selection == 1 then 'F'
    else if selection == 2 then 'B'
    else if selection == 3 then 'L'
    else if selection == 4 then 'R'
    else 'S'
  }

  /** Forward and backward use the forward/backward factor; every other selection, Stop included, the left/right one. */
  predicate UsesFbFactor(selection: int) { selection == 1 || selection == 2 }

  function FactorText(selection: int, fbText: string, lrText: string): string {
    if UsesFbFactor(selection) then fbText else lrText
  }

  /** A frame: the code letter, `str(magnitude)`, CR LF. */
  function EncodeFrame(code: char, magnitude: int): string {
    [code] + IntToString(magnitude) + CRLF
  }

  /**
   * What `clicked` does with its inputs before the tab check:
   *   Raised   - `int()` of the step text or of the factor text raised ValueError;
   *   Rejected - both parsed, but the step text is not `isnumeric()` (message box);
   *   Built    - the frame to be written.
   */
  datatype ClickResult = Raised | Rejected | Built(frame: string)

  function ClickFrame(selection: int, stepText: string, fbText: string, lrText: string): ClickResult {
    var code := SelectionCode(selection);
    var step := ParseInt(stepText);
    var factor := ParseInt(FactorText(selection, fbText, lrText));
    if step.None? || factor.None? then Raised
    else if !IsNumeric(stepText) then Rejected
    else Built(EncodeFrame(code, step.value * factor.value))
  }

  datatype Arrow = Up | Down | Left | Right

  function ArrowCode(a: Arrow): char {
    match a
    case Up => 'F'
    case Down => 'B'
    case Left => 'L'
    case Right => 'R'
  }

  /** The radio value of the direction an arrow stands for. */
  function ArrowSelection(a: Arrow): int {
    match a
    case Up => 1
    case Down => 2
    case Left => 3
    case Right => 4
  }

  /** An arrow frame: the code letter, the stored factor text unparsed, CR LF. */
  function ArrowFrame(a: Arrow, fbText: string, lrText: string): string {
    [ArrowCode(a)] + FactorText(ArrowSelection(a), fbText, lrText) + CRLF
  }

  // ---------------------------------------------------------------------------
  // The receiving side: a reference reading of the wire format, used to state
  // what a frame means.

  datatype Command = Command(code: char, magnitude: int)

  /** The decimal text `str` prints for an int: canonical digits, a '-' before a non-zero magnitude. */
  function ParseMagnitude(s: string): Option<int> {
    if |s| >= 2 && s[0] == '-' && Canonical(s[1..]) && s[1..] != "0" then
      var v: int := DigitsValue(s[1..]);
      Some(-v)
    else if Canonical(s) then Some(DigitsValue(s))
    else None
  }

  function DecodeFrame(f: string): Option<Command> {
    if |f| >= 3 && f[0] in Codes && f[|f| - 2..] == CRLF then
      match ParseMagnitude(f[1..|f| - 2])
      case Some(m) => Some(Command(f[0], m))
      case None => None
    else None
  }

  lemma MagnitudeRoundTrip(m: int)
    ensures ParseMagnitude(IntToString(m)) == Some(m)
  {
    var s := IntToString(m);
    if m >= 0 {
      assert s[0] != '-';
    }
  }

  /** Every encoded command decodes to itself. */
  lemma FrameRoundTrip(code: char, m: int)
    requires code in Codes
    ensures DecodeFrame(EncodeFrame(code, m)) == Some(Command(code, m))
  {
    var f := EncodeFrame(code, m);
    var s := IntToString(m);
    assert f[0] == code;
    assert f[|f| - 2..] == CRLF;
    assert f[1..|f| - 2] == s;
    MagnitudeRoundTrip(m);
  }

  lemma MagnitudeOnlyCanonical(s: string, m: int)
    requires ParseMagnitude(s) == Some(m)
    ensures s == IntToString(m)
  {
    if |s| >= 2 && s[0] == '-' && Canonical(s[1..]) && s[1..] != "0" {
      CanonicalRoundTrip(s[1..]);
      LeadingDigitPositive(s[1..]);
      assert s == "-" + s[1..];
    } else {
      CanonicalRoundTrip(s);
    }
  }

  /** A line decodes to a command exactly when it is that command's encoding. */
  lemma DecodeIff(f: string, code: char, m: int)
    ensures DecodeFrame(f) == Some(Command(code, m)) <==> code in Codes && f == EncodeFrame(code, m)
  {
    if code in Codes && f == EncodeFrame(code, m) {
      FrameRoundTrip(code, m);
    }
    if DecodeFrame(f) == Some(Command(code, m)) {
      var s := f[1..|f| - 2];
      MagnitudeOnlyCanonical(s, m);
      assert f == [f[0]] + s + f[|f| - 2..];
    }
  }

  /**
   * `clicked` builds a frame exactly when the step text is all digits and the
   * factor text of the selected axis parses; the frame carries the selected
   * code and the step count times that factor.
   */
  lemma ClickFrameSpec(selection: int, stepText: string, fbText: string, lrText: string)
    ensures var r := ClickFrame(selection, stepText, fbText, lrText);
            var factor := ParseInt(FactorText(selection, fbText, lrText));
            && (r.Built? <==> IsNumeric(stepText) && factor.Some?)
            && (r.Rejected? <==> ParseInt(stepText).Some? && factor.Some? && !IsNumeric(stepText))
            && (r.Built? ==> DecodeFrame(r.frame) == Some(Command(SelectionCode(selection), DigitsValue(stepText) * factor.value)))
  {
    if IsNumeric(stepText) {
      ParseNumeric(stepText);
      var factor := ParseInt(FactorText(selection, fbText, lrText));
      if factor.Some? {
        FrameRoundTrip(SelectionCode(selection), DigitsValue(stepText) * factor.value);
      }
    }
  }

  /**
   * Stop is scaled like Left and Right: with a non-zero step count and a
   * non-zero left/right factor its magnitude is not zero, and the
   * forward/backward factor plays no part.
   */
  lemma StopScaledByLrFactor(selection: int, stepText: string, fbText: string, fbText': string, lrText: string)
    requires selection !in {1, 2, 3, 4}
    requires IsNumeric(stepText) && DigitsValue(stepText) != 0
    requires ParseInt(lrText).Some? && ParseInt(lrText).value != 0
    ensures ClickFrame(selection, stepText, fbText, lrText) == ClickFrame(selection, stepText, fbText', lrText)
    ensures var r := ClickFrame(selection, stepText, fbText, lrText);
            && r.Built?
            && DecodeFrame(r.frame) == Some(Command('S', DigitsValue(stepText) * ParseInt(lrText).value))
            && DigitsValue(stepText) * ParseInt(lrText).value != 0
  {
    var f := ParseInt(lrText).value;
    var m := DigitsValue(stepText) * f;
    assert FactorText(selection, fbText, lrText) == lrText == FactorText(selection, fbText', lrText);
    assert SelectionCode(selection) == 'S';
    ClickBuilt(selection, stepText, fbText, lrText, f);
    FrameRoundTrip('S', m);
    ProductNonZero(DigitsValue(stepText), f);
  }

  lemma ProductNonZero(a: int, b: int)
    requires a != 0 && b != 0
    ensures a * b != 0
  {
  }

  /**
   * When the stored factor text is exactly `str` of some n, an arrow sends the
   * frame that `clicked` would send for one step in the same direction.
   */
  lemma ArrowIsOneStepClick(a: Arrow, fbText: string, lrText: string, n: int)
    requires FactorText(ArrowSelection(a), fbText, lrText) == IntToString(n)
    ensures ClickFrame(ArrowSelection(a), "1", fbText, lrText) == Built(ArrowFrame(a, fbText, lrText))
  {
    ParseIntToString(n);
    OneStep();
    ClickBuilt(ArrowSelection(a), "1", fbText, lrText, n);
  }

  lemma OneStep()
    ensures IsNumeric("1") && DigitsValue("1") == 1
  {
    assert "1"[..0] == [];
  }

  /** The Built case of `clicked`, stated for a known factor value. */
  lemma ClickBuilt(selection: int, stepText: string, fbText: string, lrText: string, factor: int)
    requires IsNumeric(stepText)
    requires ParseInt(FactorText(selection, fbText, lrText)) == Some(factor)
    ensures ClickFrame(selection, stepText, fbText, lrText) == Built(EncodeFrame(SelectionCode(selection), DigitsValue(stepText) * factor))
  {
    ParseNumeric(stepText);
  }

  /** An arrow frame decodes to (code, m) exactly when the stored factor text is `str(m)`. */
  lemma ArrowDecodesIffCanonical(a: Arrow, fbText: string, lrText: string, m: int)
    ensures DecodeFrame(ArrowFrame(a, fbText, lrText)) == Some(Command(ArrowCode(a), m))
        <==> FactorText(ArrowSelection(a), fbText, lrText) == IntToString(m)
  {
    var t := FactorText(ArrowSelection(a), fbText, lrText);
    DecodeIff(ArrowFrame(a, fbText, lrText), ArrowCode(a), m);
    if ArrowFrame(a, fbText, lrText) == EncodeFrame(ArrowCode(a), m) {
      var f := ArrowFrame(a, fbText, lrText);
      assert f[1..|f| - 2] == t;
      assert f[1..|f| - 2] == IntToString(m);
    }
  }

  lemma Ten()
    ensures IsNumeric("10") && DigitsValue("10") == 10
  {
    assert "10"[..1] == "1" && "1"[..0] == [];
  }

  lemma StripTrailingNewline(d: string)
    requires Canonical(d)
    ensures Strip(d + "\n") == d
  {
    var t := d + "\n";
    assert StripLeading(t) == t;
    assert t[..|t| - 1] == d;
    assert IsSpace(t[|t| - 1]);
    assert StripTrailing(t) == StripTrailing(d);
    assert !IsSpace(d[|d| - 1]);
  }

  /**
   * The factor text is sent verbatim: when a factor file holds a decimal
   * followed by a newline, the arrow frame carries the newline and is no
   * well-formed frame, while a one-step click, which goes through `int()`,
   * sends the frame the arrow would send for the bare decimal.
   */
  lemma ArrowSendsTextVerbatim(d: string, lrText: string)
    requires Canonical(d)
    ensures ClickFrame(1, "1", d + "\n", lrText) == Built(ArrowFrame(Up, d, lrText))
    ensures DecodeFrame(ArrowFrame(Up, d + "\n", lrText)) == None
  {
    ClickStripsNewline(d, lrText);
    NewlineFrameRejected(d, lrText);
  }

  lemma ClickStripsNewline(d: string, lrText: string)
    requires Canonical(d)
    ensures ClickFrame(1, "1", d + "\n", lrText) == Built(ArrowFrame(Up, d, lrText))
  {
    var t := d + "\n";
    var v := DigitsValue(d);
    StripTrailingNewline(d);
    ParseNumeric(d);
    assert ParseInt(t) == Some(v);
    OneStep();
    ClickBuilt(1, "1", t, lrText, v);
    assert DigitsValue("1") * v == v;
    CanonicalRoundTrip(d);
    assert EncodeFrame('F', v) == ArrowFrame(Up, d, lrText);
  }

  lemma NewlineFrameRejected(d: string, lrText: string)
    requires Canonical(d)
    ensures DecodeFrame(ArrowFrame(Up, d + "\n", lrText)) == None
  {
    var t := d + "\n";
    var f := ArrowFrame(Up, t, lrText);
    assert f[1..|f| - 2] == t;
    assert !IsDigit(t[|t| - 1]);
    assert !Canonical(t);
    assert t[0] == d[0] && t[0] != '-';
    assert ParseMagnitude(t) == None;
  }

  lemma TenParses()
    ensures ParseInt("10") == Some(10)
  {
    Ten();
    ParseNumeric("10");
  }

  lemma Three()
    ensures IsNumeric("3") && DigitsValue("3") == 3
  {
    assert "3"[..0] == [];
  }

  lemma ForwardThirty()
    ensures EncodeFrame('F', 30) == "F30\r\n"
  {
    assert NatToString(30) == "30";
  }

  /** Factor 10, Forward and "3" give "F30\r\n". */
  lemma ClickForwardExample()
    ensures ClickFrame(1, "3", "10", "5") == Built("F30\r\n")
  {
    TenParses();
    Three();
    ForwardThirty();
    ClickBuilt(1, "3", "10", "5", 10);
  }

  /** "abc" is refused by `int()` itself, before `isnumeric()` is asked. */
  lemma ClickLettersExample()
    ensures ClickFrame(1, "abc", "10", "5") == Raised
  {
    var s := "abc";
    assert !IsDigit(s[0]);
    assert StripLeading(s) == s && StripTrailing(s) == s;
    assert ParseInt(s) == None;
  }

  /** " 3" is read by `int()` but fails `isnumeric()`: the message-box path. */
  lemma ClickSpaceExample()
    ensures ClickFrame(3, " 3", "10", "5") == Rejected
  {
    assert "5"[..0] == [] && "3"[..0] == [];
    ParseNumeric("5");
    ParseNumeric("3");
    assert Strip(" 3") == "3";
  }

}
