/**
 * The wire format of the Bartels micropump controller's voltage command
 * (`PA<aaa>#<bbb>#<ccc>#<ddd>` followed by CR LF) and the channel vector that
 * the single-pulse helper builds from channel selectors.
 */
module Commands {
  import opened Optional
  import opened Text

  /** One voltage per pump channel; the controller always takes all four. */
  type Vec = v: seq<int> | |v| == 4 witness [0, 0, 0, 0]

  const CRLF: string := "\r\n"
  const PowerOnCommand: string := "PON\r\n"
  const PowerOffCommand: string := "POFF\r\n"
  const AllOffCommand: string := "PA000#000#000#000\r\n"

  /** Every channel of `v` can be written as a three-digit field. */
  predicate InRange(v: Vec) {
    forall c :: 0 <= c < 4 ==> 0 <= v[c] <= 999
  }

  function Zeros(n: nat): (r: string)
    ensures |r| == n
  {
    if n == 0 then "" else Zeros(n - 1) + "0"
  }

  /** Left-pads `s` with zeros to at least `width` characters. */
  function ZeroPad(s: string, width: nat): (r: string)
    ensures |r| == if |s| >= width then |s| else width
  {
    if |s| >= width then s else Zeros(width - |s|) + s
  }

  /**
   * Python's `"{:03d}".format(n)`: the width of 3 counts the sign, and the
   * zeros go between the sign and the digits.
   */
  function Field(n: int): (r: string) {
    if n < 0 then "-" + ZeroPad(NatToString(-n), 2) else ZeroPad(NatToString(n), 3)
  }

  /** The command `micropump_set_all_voltages` writes for `v`. */
  function SetAllCommand(v: Vec): (r: string) {
    "PA" + Field(v[0]) + "#" + Field(v[1]) + "#" + Field(v[2]) + "#" + Field(v[3]) + CRLF
  }

  /** Reads a three-digit field; anything else is rejected. */
  function ParseField(f: string): (r: Option<int>)
    requires |f| == 3
    ensures r.Some? ==> 0 <= r.value <= 999
  {
    if IsDigit(f[0]) && IsDigit(f[1]) && IsDigit(f[2])
    then Some(100 * DigitValue(f[0]) + 10 * DigitValue(f[1]) + DigitValue(f[2]))
    else None
  }

  /** The controller's reading of a voltage command: `PA`, four `#`-separated fields, CR LF. */
  function ParseSetAllCommand(s: string): (r: Option<Vec>)
    ensures r.Some? ==> InRange(r.value)
  {
    if |s| == 19 && s[..2] == "PA" && s[5] == '#' && s[9] == '#' && s[13] == '#' && s[17..] == CRLF
    then
      var a, b, c, d := ParseField(s[2..5]), ParseField(s[6..9]), ParseField(s[10..13]), ParseField(s[14..17]);
      if a.Some? && b.Some? && c.Some? && d.Some? then Some([a.value, b.value, c.value, d.value]) else None
    else None
  }

  /** A voltage from 0 to 999 is written as exactly three digits, most significant first. */
  lemma FieldDigits(n: int)
    requires 0 <= n <= 999
    ensures Field(n) == [DigitChar(n / 100), DigitChar(n / 10 % 10), DigitChar(n % 10)]
  {
    SmallNatToString(n);
    assert Zeros(2) == "00" && Zeros(1) == "0";
    if n < 10 {
      assert Field(n) == "00" + [DigitChar(n)];
    } else if n < 100 {
      assert Field(n) == "0" + [DigitChar(n / 10), DigitChar(n % 10)];
    }
  }

  lemma ParseFieldOfField(n: int)
    requires 0 <= n <= 999
    ensures |Field(n)| == 3 && ParseField(Field(n)) == Some(n)
  {
    FieldDigits(n);
  }

  /** For an in-range vector the command, character by character. */
  lemma CommandChars(v: Vec)
    requires InRange(v)
    ensures SetAllCommand(v) == ['P', 'A'] + Field(v[0]) + ['#'] + Field(v[1]) + ['#'] + Field(v[2]) + ['#'] + Field(v[3]) + ['\r', '\n']
    ensures forall c :: 0 <= c < 4 ==> |Field(v[c])| == 3
  {
    FieldDigits(v[0]);
    FieldDigits(v[1]);
    FieldDigits(v[2]);
    FieldDigits(v[3]);
  }

  /** The command's layout in terms of its fields: 19 characters with every piece at a fixed place. */
  lemma CommandLayout(s: string, f0: string, f1: string, f2: string, f3: string)
    requires |f0| == |f1| == |f2| == |f3| == 3
    requires s == ['P', 'A'] + f0 + ['#'] + f1 + ['#'] + f2 + ['#'] + f3 + ['\r', '\n']
    ensures |s| == 19 && s[..2] == "PA" && s[17..] == CRLF
    ensures s[5] == '#' && s[9] == '#' && s[13] == '#'
    ensures s[2..5] == f0 && s[6..9] == f1 && s[10..13] == f2 && s[14..17] == f3
  {
    var p := ['P', 'A'] + f0;
    assert p[2..5] == f0;
    var q := p + ['#'] + f1;
    assert q[6..9] == f1 && q[..5] == p;
    var r := q + ['#'] + f2;
    assert r[10..13] == f2 && r[..9] == q;
    var t := r + ['#'] + f3;
    assert t[14..17] == f3 && t[..13] == r;
    assert s == t + ['\r', '\n'];
    assert s[..17] == t;
  }

  /**
   * For voltages in 0..999 the command is `PA`, four three-digit fields joined by
   * `#`, then CR LF: 19 characters with every piece at a fixed place.
   */
  lemma SetAllLayout(v: Vec)
    requires InRange(v)
    ensures |SetAllCommand(v)| == 19
    ensures SetAllCommand(v)[..2] == "PA" && SetAllCommand(v)[17..] == CRLF
    ensures SetAllCommand(v)[5] == '#' && SetAllCommand(v)[9] == '#' && SetAllCommand(v)[13] == '#'
    ensures SetAllCommand(v)[2..5] == Field(v[0]) && SetAllCommand(v)[6..9] == Field(v[1])
    ensures SetAllCommand(v)[10..13] == Field(v[2]) && SetAllCommand(v)[14..17] == Field(v[3])
    ensures forall c :: 0 <= c < 4 ==> |Field(v[c])| == 3
  {
    CommandChars(v);
    CommandLayout(SetAllCommand(v), Field(v[0]), Field(v[1]), Field(v[2]), Field(v[3]));
  }

  /** For voltages in 0..999, reading the command back gives the vector again. */
  lemma {:induction false} SetAllRoundTrip(v: Vec)
    requires InRange(v)
    ensures ParseSetAllCommand(SetAllCommand(v)) == Some(v)
  {
    var s := SetAllCommand(v);
    SetAllLayout(v);
    ParseFieldOfField(v[0]);
    ParseFieldOfField(v[1]);
    ParseFieldOfField(v[2]);
    ParseFieldOfField(v[3]);
    assert ParseField(s[2..5]) == Some(v[0]);
    assert ParseField(s[6..9]) == Some(v[1]);
    assert ParseField(s[10..13]) == Some(v[2]);
    assert ParseField(s[14..17]) == Some(v[3]);
    assert [v[0], v[1], v[2], v[3]] == v;
  }

  /** Every command the controller accepts is the one written for the vector it denotes. */
  lemma {:induction false} ParseThenFormat(s: string)
    requires ParseSetAllCommand(s).Some?
    ensures SetAllCommand(ParseSetAllCommand(s).value) == s
  {
    var v := ParseSetAllCommand(s).value;
    FieldOfParsed(s[2..5]);
    FieldOfParsed(s[6..9]);
    FieldOfParsed(s[10..13]);
    FieldOfParsed(s[14..17]);
    SetAllLayout(v);
    var t := SetAllCommand(v);
    forall i | 0 <= i < 19 ensures t[i] == s[i] {
      if i < 2 {
        assert t[..2][i] == s[..2][i];
      } else if i < 5 {
        assert t[2..5][i - 2] == s[2..5][i - 2];
      } else if 5 < i < 9 {
        assert t[6..9][i - 6] == s[6..9][i - 6];
      } else if 9 < i < 13 {
        assert t[10..13][i - 10] == s[10..13][i - 10];
      } else if 13 < i < 17 {
        assert t[14..17][i - 14] == s[14..17][i - 14];
      } else if 17 <= i {
        assert t[17..][i - 17] == s[17..][i - 17];
      }
    }
  }

  lemma FieldOfParsed(f: string)
    requires |f| == 3 && ParseField(f).Some?
    ensures Field(ParseField(f).value) == f
  {
    var n := ParseField(f).value;
    var a, b, c := DigitValue(f[0]), DigitValue(f[1]), DigitValue(f[2]);
    ThreeDigits(a, b, c);
    FieldDigits(n);
    assert f == [DigitChar(a), DigitChar(b), DigitChar(c)];
  }

  /** The digits of a three-digit number are recovered by division and remainder. */
  lemma ThreeDigits(a: nat, b: nat, c: nat)
    requires a < 10 && b < 10 && c < 10
    ensures (100 * a + 10 * b + c) / 100 == a
    ensures (100 * a + 10 * b + c) / 10 % 10 == b
    ensures (100 * a + 10 * b + c) % 10 == c
  {
    var n := 100 * a + 10 * b + c;
    assert n == 10 * (10 * a + b) + c;
    assert n / 10 == 10 * a + b;
  }

  /** The commands the transmitter sends to the controller. */
  datatype Command = PowerOn | PowerOff | SetAll(volts: Vec)

  /** The bytes of a command on the wire. */
  function Encode(c: Command): (r: string) {
    match c
    case PowerOn => PowerOnCommand
    case PowerOff => PowerOffCommand
    case SetAll(v) => SetAllCommand(v)
  }

  /** Recognises a command from its bytes. */
  function Decode(s: string): (r: Option<Command>)
    ensures r.Some? && r.value.SetAll? ==> InRange(r.value.volts)
  {
    if s == PowerOnCommand then Some(PowerOn)
    else if s == PowerOffCommand then Some(PowerOff)
    else match ParseSetAllCommand(s)
      case Some(v) => Some(SetAll(v))
      case None => None
  }

  /** Every command with three-digit voltages is read back from its bytes. */
  lemma DecodeEncode(c: Command)
    requires c.SetAll? ==> InRange(c.volts)
    ensures Decode(Encode(c)) == Some(c)
  {
    if c.SetAll? {
      SetAllRoundTrip(c.volts);
    }
  }

  /** Whatever is recognised is written back byte for byte. */
  lemma EncodeDecode(s: string)
    requires Decode(s).Some?
    ensures Encode(Decode(s).value) == s
  {
    if s != PowerOnCommand && s != PowerOffCommand {
      ParseThenFormat(s);
    }
  }

  /** The literal switch-off command is the all-zero voltage command. */
  lemma EncodeAllOff()
    ensures Encode(SetAll([0, 0, 0, 0])) == AllOffCommand
  {
    FieldDigits(0);
    assert Encode(SetAll([0, 0, 0, 0])) == "PA" + "000" + "#" + "000" + "#" + "000" + "#" + "000" + CRLF;
  }

  /**
   * `micropump_set_voltage_duration` as written: channels 1 to 3 get
   * `int(chN) * voltage`, but channel 4 gets `int(channel4) + voltage`.
   */
  function ChannelsAsWritten(ch1: int, ch2: int, ch3: int, ch4: int, voltage: int): (r: Vec)
    ensures r[0] == ch1 * voltage && r[1] == ch2 * voltage && r[2] == ch3 * voltage
    ensures r[3] == ch4 + voltage
  {
    [ch1 * voltage, ch2 * voltage, ch3 * voltage, ch4 + voltage]
  }

  /** With channel 4 deselected and a non-zero voltage, the as-written vector still drives channel 4. */
  lemma ChannelFourDrivenWhenDeselected(voltage: int)
    requires voltage != 0
    ensures ChannelsAsWritten(1, 0, 0, 0, voltage)[3] == voltage != 0
    ensures SelectedChannels(1, 0, 0, 0, voltage)[3] == 0
  {
  }

  /** On the wire: selecting channel 1 alone at 100 V, the source writes 100 on channel 4 too. */
  lemma ChannelFourOnTheWire()
    ensures Encode(SetAll(ChannelsAsWritten(1, 0, 0, 0, 100))) == "PA100#000#000#100\r\n"
  {
    FieldDigits(100);
    FieldDigits(0);
    var v := ChannelsAsWritten(1, 0, 0, 0, 100);
    assert v[0] == 100 && v[1] == 0 && v[2] == 0 && v[3] == 100;
    var wrote := Encode(SetAll(v));
    assert wrote == "PA" + "100" + "#" + "000" + "#" + "000" + "#" + "100" + CRLF;
  }

  /** The channel vector as evidently intended: every selector multiplies the voltage. */
  function SelectedChannels(ch1: int, ch2: int, ch3: int, ch4: int, voltage: int): Vec {
    [ch1 * voltage, ch2 * voltage, ch3 * voltage, ch4 * voltage]
  }

  /** On the wire: selecting channel 1 alone at 100 V, the corrected vector writes 000 on channel 4. */
  lemma SelectedOnTheWire()
    ensures Encode(SetAll(SelectedChannels(1, 0, 0, 0, 100))) == "PA100#000#000#000\r\n"
  {
    FieldDigits(100);
    FieldDigits(0);
    var v := SelectedChannels(1, 0, 0, 0, 100);
    assert v[0] == 100 && v[1] == 0 && v[2] == 0 && v[3] == 0;
    var wrote := Encode(SetAll(v));
    assert wrote == "PA" + "100" + "#" + "000" + "#" + "000" + "#" + "000" + CRLF;
  }

  /** With 0/1 selectors, a channel gets the voltage exactly when it is selected, and 0 otherwise. */
  lemma SelectedChannelsDriveOnlySelected(ch1: int, ch2: int, ch3: int, ch4: int, voltage: int)
    requires ch1 in {0, 1} && ch2 in {0, 1} && ch3 in {0, 1} && ch4 in {0, 1}
    ensures var r := SelectedChannels(ch1, ch2, ch3, ch4, voltage);
      forall c :: 0 <= c < 4 ==> r[c] == if [ch1, ch2, ch3, ch4][c] == 1 then voltage else 0
  {
  }
}
