/** The AmbientReport command: it reports the operating system, the Windows
    firewall state and the antivirus and third-party firewall products that
    Windows Security Center knows of.  The answers of WMI, of the COM
    firewall objects and of `Environment.OSVersion` are inputs. */
module AmbientReport {
  import opened Common
  import opened Text

  // ---------------------------------------------------------------------
  // Operating-system version and the Security Center namespace it selects

  /** System.Version; a component that is not defined is -1. */
  datatype Version = Version(major: int, minor: int, build: int, revision: int)

  /** `a >= b` on System.Version: the first component in which they differ
      decides, in the order major, minor, build, revision. */
  predicate AtLeast(a: Version, b: Version) {
    if a.major != b.major then a.major > b.major
    else if a.minor != b.minor then a.minor > b.minor
    else if a.build != b.build then a.build > b.build
    else a.revision >= b.revision
  }

  /** The comparison is a total order on versions. */
  lemma AtLeastIsTotalOrder(a: Version, b: Version, c: Version)
    ensures AtLeast(a, a)
    ensures AtLeast(a, b) || AtLeast(b, a)
    ensures AtLeast(a, b) && AtLeast(b, a) ==> a == b
    ensures AtLeast(a, b) && AtLeast(b, c) ==> AtLeast(a, c)
  {
  }

  /** Windows Vista SP1, the first version with `root\SecurityCenter2`. */
  const VistaSp1Version := Version(6, 0, 6001, 18000)

  /** `useLatestWsc`. */
  predicate UseLatestWsc(os: Version) {
    AtLeast(os, VistaSp1Version)
  }

  const SecurityCenter2Scope := "root\\SecurityCenter2"
  const SecurityCenterScope := "root\\SecurityCenter"
  const AntivirusQuery := "SELECT * FROM AntivirusProduct"
  const FirewallProductQuery := "SELECT * FROM FirewallProduct"

  /** The WMI namespace that is queried. */
  function WscScope(useLatestWsc: bool): string {
    if useLatestWsc then SecurityCenter2Scope else SecurityCenterScope
  }

  /** The property read for "enabled". */
  function EnabledPropertyName(useLatestWsc: bool): string {
    if useLatestWsc then "productState" else "onAccessScanningEnabled"
  }

  /** The property read for "up to date". */
  function UpdatedPropertyName(useLatestWsc: bool): string {
    if useLatestWsc then "productState" else "productUptoDate"
  }

  /** From Vista SP1 on, `root\SecurityCenter2` and its `productState`;
      before it `root\SecurityCenter` and its two separate flags. */
  lemma WscSelection()
    ensures UseLatestWsc(Version(6, 0, 6001, 18000)) && UseLatestWsc(Version(6, 1, 7601, 0))
    ensures UseLatestWsc(Version(10, 0, 0, 0))
    ensures !UseLatestWsc(Version(6, 0, 6000, 16386)) && !UseLatestWsc(Version(5, 1, 2600, 0))
    ensures !UseLatestWsc(Version(6, 0, 6001, 17999))
    ensures WscScope(true) == SecurityCenter2Scope
    ensures EnabledPropertyName(true) == UpdatedPropertyName(true) == "productState"
    ensures WscScope(false) == SecurityCenterScope
    ensures EnabledPropertyName(false) == "onAccessScanningEnabled" && UpdatedPropertyName(false) == "productUptoDate"
  {
  }

  // ---------------------------------------------------------------------
  // WMI objects and the conversions applied to their property values

  /** The value of a WMI property. */
  datatype PropertyValue = NullValue | IntegerValue(i: int) | BooleanValue(b: bool) | TextValue(s: string)

  /** PropertyData: a name and a value. */
  datatype Property = Property(name: string, value: PropertyValue)

  /** A ManagementBaseObject, as its list of properties. */
  type WmiObject = seq<Property>

  /** What `searcher.Get()` gives: the objects found, or a failed query. */
  datatype WmiReply = QueryFailed | Objects(items: seq<WmiObject>)

  /** The first property whose name equals `name` ignoring case, or null. */
  function FindProperty(obj: WmiObject, name: string): (r: Option<PropertyValue>)
    ensures r.None? <==> forall i :: 0 <= i < |obj| ==> !EqualsIgnoreCase(obj[i].name, name)
    ensures r.Some? ==> exists i :: 0 <= i < |obj| && EqualsIgnoreCase(obj[i].name, name) && obj[i].value == r.value
                                    && forall j :: 0 <= j < i ==> !EqualsIgnoreCase(obj[j].name, name)
  {
    if obj == [] then None
    else if EqualsIgnoreCase(obj[0].name, name) then Some(obj[0].value)
    else
      var r := FindProperty(obj[1..], name);
      assert forall i :: 1 <= i < |obj| ==> obj[i] == obj[1..][i - 1];
      if r.Some? then
        var k :| 0 <= k < |obj[1..]| && EqualsIgnoreCase(obj[1..][k].name, name) && obj[1..][k].value == r.value
                  && forall j :: 0 <= j < k ==> !EqualsIgnoreCase(obj[1..][j].name, name);
        assert EqualsIgnoreCase(obj[k + 1].name, name) && obj[k + 1].value == r.value;
        r
      else r
  }

  /** Int32.Parse of an optional `-` followed by decimal digits; other
      text is a format error and a value outside Int32 an overflow. */
  function ParseInt32(s: string): (r: Result<Int32>)
    ensures r.Ok? ==> s != [] && (IsDigit(s[0]) || s[0] == '-')
    ensures r.Ok? ==> var digits := if s[0] == '-' then s[1..] else s;
                      && digits != [] && AllDigits(digits)
                      && r.value == if s[0] == '-' then -(DecimalValue(digits) as int) else DecimalValue(digits)
    ensures r.Err? ==> r.error == FormatError || r.error == Overflow
  {
    var negative := s != [] && s[0] == '-';
    var digits := if negative then s[1..] else s;
    if digits == [] || !AllDigits(digits) then Err(FormatError)
    else
      var magnitude: int := DecimalValue(digits);
      var v := if negative then -magnitude else magnitude;
      if -0x8000_0000 <= v < 0x8000_0000 then Ok(v) else Err(Overflow)
  }

  /** Every Int32 written in decimal parses back to itself. */
  lemma ParseInt32RoundTrip(n: Int32)
    ensures ParseInt32(IntToDecimal(n)) == Ok(n)
  {
    var s := IntToDecimal(n);
    var m: nat := if n < 0 then -(n as int) else n;
    var digits := NatToDecimal(m);
    DecimalRoundTrip(m);
    if n < 0 {
      assert s[0] == '-' && s[1..] == digits;
    } else {
      assert s == digits && IsDigit(s[0]) && s[0] != '-';
    }

  }

  /** `Convert.ToInt32(value)`. */
  function ToInt32(v: PropertyValue): (r: Result<Int32>)
    ensures v.IntegerValue? ==> (r.Ok? <==> -0x8000_0000 <= v.i < 0x8000_0000)
    ensures v.IntegerValue? && r.Ok? ==> r.value == v.i
    ensures r.Err? ==> r.error == Overflow || r.error == FormatError
  {
    match v
    case NullValue => Ok(0)
    case IntegerValue(i) => if -0x8000_0000 <= i < 0x8000_0000 then Ok(i) else Err(Overflow)
    case BooleanValue(b) => Ok(if b then 1 else 0)
    case TextValue(s) => ParseInt32(s)
  }

  /** `Convert.ToBoolean(value)`: null is false, a number is true unless it
      is zero, text must read `True` or `False` in any letter case once
      white space is trimmed. */
  function ToBoolean(v: PropertyValue): (r: Result<bool>)
    ensures r.Err? ==> v.TextValue? && r.error == FormatError
    ensures v.NullValue? ==> r == Ok(false)
    ensures v.IntegerValue? ==> r == Ok(v.i != 0)
    ensures v.BooleanValue? ==> r == Ok(v.b)
    ensures v.TextValue? && EqualsIgnoreCase(Trim(v.s, WhiteSpace + {'\0'}), "True") ==> r == Ok(true)
    ensures v.TextValue? && EqualsIgnoreCase(Trim(v.s, WhiteSpace + {'\0'}), "False") ==> r == Ok(false)
    ensures v.TextValue? ==>
              (r.Ok? <==> EqualsIgnoreCase(Trim(v.s, WhiteSpace + {'\0'}), "True")
                          || EqualsIgnoreCase(Trim(v.s, WhiteSpace + {'\0'}), "False"))
  {
    match v
    case NullValue => Ok(false)
    case IntegerValue(i) => Ok(i != 0)
    case BooleanValue(b) => Ok(b)
    case TextValue(s) =>
      var t := Trim(s, WhiteSpace + {'\0'});
      if EqualsIgnoreCase(t, "True") then Ok(true)
      else if EqualsIgnoreCase(t, "False") then Ok(false)
      else Err(FormatError)
  }

  /** `value.ToString()`; a null value throws. */
  function DisplayString(v: PropertyValue): (r: Result<string>)
    ensures r.Err? <==> v.NullValue?
    ensures r.Err? ==> r.error == NullReference
    ensures v.TextValue? ==> r == Ok(v.s)
  {
    match v
    case NullValue => Err(NullReference)
    case IntegerValue(i) => Ok(IntToDecimal(i))
    case BooleanValue(b) => Ok(if b then "True" else "False")
    case TextValue(s) => Ok(s)
  }

  // ---------------------------------------------------------------------
  // The Security Center 2 product-state decoders

  /** `n.ToString("X6")`: upper-case hexadecimal, at least six digits; a
      negative number is written as its 32-bit two's complement. */
  function FormatX6(n: Int32): (s: string)
    ensures |s| >= 6
  {
    var u := ToUInt32(n);
    HexDigits(u, if HexLength(u) < 6 then 6 else HexLength(u))
  }

  /** `byte.Parse(s)` on text made of digits and letters: decimal digits
      only, and at most 255. */
  function ParseByte(s: string): (r: Result<nat>)
    ensures r.Ok? ==> r.value < 256
    ensures r.Err? ==> r.error == FormatError || r.error == Overflow
  {
    if s == [] || !AllDigits(s) then Err(FormatError)
    else if DecimalValue(s) > 255 then Err(Overflow)
    else Ok(DecimalValue(s))
  }

  /** `DecodeWsc2ProductEnabledState`: the character at index 2 of the X6
      text, read as a decimal byte, is 1. */
  function DecodeWsc2ProductEnabledState(productState: PropertyValue): (r: Result<bool>)
    ensures r.Err? ==> r.error == FormatError || r.error == Overflow
  {
    match ToInt32(productState)
    case Err(e) => Err(e)
    case Ok(n) =>
      match ParseByte(FormatX6(n)[2..3])
      case Err(e) => Err(e)
      case Ok(enabledState) => Ok(enabledState == 1)
  }

  /** `DecodeWsc2ProductUpdatedState`: characters 4 and 5 of the X6 text,
      read as a decimal byte, are 0. */
  function DecodeWsc2ProductUpdatedState(productState: PropertyValue): (r: Result<bool>)
    ensures r.Err? ==> r.error == FormatError || r.error == Overflow
  {
    match ToInt32(productState)
    case Err(e) => Err(e)
    case Ok(n) =>
      match ParseByte(FormatX6(n)[4..6])
      case Err(e) => Err(e)
      case Ok(updatedState) => Ok(updatedState == 0)
  }

  /** Below 0x1000000 the X6 text is exactly the six nibbles of the number,
      most significant first. */
  lemma X6Nibbles(n: int)
    requires 0 <= n < 0x100_0000
    ensures FormatX6(n) == [HexDigit((n / 0x10_0000) % 16), HexDigit((n / 0x1_0000) % 16), HexDigit((n / 0x1000) % 16),
                            HexDigit((n / 0x100) % 16), HexDigit((n / 0x10) % 16), HexDigit(n % 16)]
  {
    assert Pow16(6) == 0x100_0000;
    HexLengthBound(n, 6);
    assert FormatX6(n) == HexDigits(n, 6);
    var q1 := n / 16;
    var q2 := q1 / 16;
    var q3 := q2 / 16;
    var q4 := q3 / 16;
    var q5 := q4 / 16;
    assert q2 == n / 0x100 && q3 == n / 0x1000 && q4 == n / 0x1_0000 && q5 == n / 0x10_0000;
    assert HexDigits(q5, 1) == [HexDigit(q5 % 16)];
    assert HexDigits(q4, 2) == HexDigits(q5, 1) + [HexDigit(q4 % 16)];
    assert HexDigits(q3, 3) == HexDigits(q4, 2) + [HexDigit(q3 % 16)];
    assert HexDigits(q2, 4) == HexDigits(q3, 3) + [HexDigit(q2 % 16)];
    assert HexDigits(q1, 5) == HexDigits(q2, 4) + [HexDigit(q1 % 16)];
  }

  /** One hexadecimal digit read as a decimal byte: its value when it is a
      decimal digit, a format error when it is a letter. */
  lemma ParseOneHexDigit(d: nat)
    requires d < 16
    ensures ParseByte([HexDigit(d)]) == if d < 10 then Ok(d) else Err(FormatError)
  {
    var s := [HexDigit(d)];
    if d < 10 {
      assert IsDigit(s[0]) && s[..0] == [];
      assert DecimalValue(s) == d;
    } else {
      assert !IsDigit(s[0]);
    }
  }

  /** Two hexadecimal digits read as a decimal byte. */
  lemma ParseTwoHexDigits(hi: nat, lo: nat)
    requires hi < 16 && lo < 16
    ensures ParseByte([HexDigit(hi), HexDigit(lo)]) == if hi < 10 && lo < 10 then Ok(10 * hi + lo) else Err(FormatError)
  {
    var s := [HexDigit(hi), HexDigit(lo)];
    if hi < 10 && lo < 10 {
      assert IsDigit(s[0]) && IsDigit(s[1]);
      assert s[..1] == [HexDigit(hi)] && [HexDigit(hi)][..0] == [];
      assert DecimalValue([HexDigit(hi)]) == hi;
      assert DecimalValue(s) == 10 * hi + lo;
    } else if hi >= 10 {
      assert !IsDigit(s[0]);
    } else {
      assert !IsDigit(s[1]);
    }
  }

  /** For a product state below 0x1000000, "enabled" reads bits 12-15: it
      is true exactly when they hold 1, and a nibble A-F throws. */
  lemma EnabledReadsBits12To15(n: int)
    requires 0 <= n < 0x100_0000
    ensures var nibble := (n / 0x1000) % 16;
            DecodeWsc2ProductEnabledState(IntegerValue(n)) == if nibble < 10 then Ok(nibble == 1) else Err(FormatError)
  {
    X6Nibbles(n);
    assert FormatX6(n)[2..3] == [HexDigit((n / 0x1000) % 16)];
    ParseOneHexDigit((n / 0x1000) % 16);
  }

  /** For a product state below 0x1000000, "updated" reads the low byte: it
      is true exactly when that byte is 0, and a nibble A-F in it throws. */
  lemma UpdatedReadsLowByte(n: int)
    requires 0 <= n < 0x100_0000
    ensures var hi, lo := (n / 0x10) % 16, n % 16;
            DecodeWsc2ProductUpdatedState(IntegerValue(n)) == if hi < 10 && lo < 10 then Ok(n % 0x100 == 0) else Err(FormatError)
  {
    var hi, lo := (n / 0x10) % 16, n % 16;
    X6Nibbles(n);
    assert FormatX6(n)[4..6] == [HexDigit(hi), HexDigit(lo)];
    ParseTwoHexDigits(hi, lo);
    LowByteNibbles(n);
  }

  /** The low byte is made of the two lowest nibbles. */
  lemma LowByteNibbles(n: nat)
    ensures n % 0x100 == 16 * ((n / 0x10) % 16) + n % 16
  {
    var q, lo := n / 16, n % 16;
    var qq, hi := q / 16, q % 16;
    assert n == 16 * q + lo;
    assert q == 16 * qq + hi;
    assert n == 0x100 * qq + (16 * hi + lo);
  }

  /** 0x061100, a state Security Center 2 reports for an enabled product
      whose signatures are up to date. */
  lemma EnabledUpToDateExample(n: int)
    requires n == 0x06_1100
    ensures DecodeWsc2ProductEnabledState(IntegerValue(n)) == Ok(true)
    ensures DecodeWsc2ProductUpdatedState(IntegerValue(n)) == Ok(true)
  {
    assert DecodeWsc2ProductEnabledState(IntegerValue(n)) == Ok(true) by {
      EnabledReadsBits12To15(n);
      assert n / 0x1000 == 0x61;
    }
    assert DecodeWsc2ProductUpdatedState(IntegerValue(n)) == Ok(true) by {
      UpdatedReadsLowByte(n);
      assert n / 0x10 == 0x6110 && n % 0x100 == 0;
    }
  }

  /** 0x060110: disabled, signatures out of date. */
  lemma DisabledOutOfDateExample(n: int)
    requires n == 0x06_0110
    ensures DecodeWsc2ProductEnabledState(IntegerValue(n)) == Ok(false)
    ensures DecodeWsc2ProductUpdatedState(IntegerValue(n)) == Ok(false)
  {
    assert DecodeWsc2ProductEnabledState(IntegerValue(n)) == Ok(false) by {
      EnabledReadsBits12To15(n);
      assert n / 0x1000 == 0x60;
    }
    assert DecodeWsc2ProductUpdatedState(IntegerValue(n)) == Ok(false) by {
      UpdatedReadsLowByte(n);
      assert n / 0x10 == 0x6011 && n % 0x100 == 0x10;
    }
  }

  /** A nibble A-F where a decimal digit is read throws. */
  lemma LetterNibbleExample(enabledState: int, productState: int)
    requires enabledState == 0x00_A000 && productState == 0x00_001B
    ensures DecodeWsc2ProductEnabledState(IntegerValue(enabledState)) == Err(FormatError)
    ensures DecodeWsc2ProductUpdatedState(IntegerValue(productState)) == Err(FormatError)
  {
    assert DecodeWsc2ProductEnabledState(IntegerValue(enabledState)) == Err(FormatError) by {
      EnabledReadsBits12To15(enabledState);
      assert enabledState / 0x1000 == 0xA;
    }
    assert DecodeWsc2ProductUpdatedState(IntegerValue(productState)) == Err(FormatError) by {
      UpdatedReadsLowByte(productState);
      assert productState / 0x10 == 1;
    }
  }

  /** A value outside Int32 overflows before it is decoded. */
  lemma ProductStateOverflows(n: int)
    requires n >= 0x8000_0000
    ensures DecodeWsc2ProductEnabledState(IntegerValue(n)) == Err(Overflow)
    ensures DecodeWsc2ProductUpdatedState(IntegerValue(n)) == Err(Overflow)
  {
  }

  /** "enabled" as the namespace in use stores it. */
  function ReadEnabled(v: PropertyValue, useLatestWsc: bool): (r: Result<bool>)
    ensures r.Err? ==> r.error == FormatError || r.error == Overflow
  {
    if useLatestWsc then DecodeWsc2ProductEnabledState(v) else ToBoolean(v)
  }

  /** "up to date" as the namespace in use stores it. */
  function ReadUpdated(v: PropertyValue, useLatestWsc: bool): (r: Result<bool>)
    ensures r.Err? ==> r.error == FormatError || r.error == Overflow
  {
    if useLatestWsc then DecodeWsc2ProductUpdatedState(v) else ToBoolean(v)
  }

  // ---------------------------------------------------------------------
  // The report

  /** AmbientReportOsInfo. */
  datatype OsInfo = OsInfo(displayName: string, version: Version, platform: string)

  /** AmbientReportWindowsFirewallInfo; a `None` field was never assigned. */
  datatype WindowsFirewallInfo = WindowsFirewallInfo(
    domainEnabled: Option<bool>, standardEnabled: Option<bool>,
    privateEnabled: Option<bool>, publicEnabled: Option<bool>)

  const NoFirewallFields := WindowsFirewallInfo(None, None, None, None)

  /** AmbientReportAntivirusInfo; a fresh one has a null name and false flags. */
  datatype AntivirusInfo = AntivirusInfo(displayName: Option<string>, enabled: bool, updated: bool)

  /** AmbientReportFirewallInfo; a fresh one has a null name and a false flag. */
  datatype FirewallInfo = FirewallInfo(displayName: Option<string>, enabled: bool)

  /** AmbientReportResult; every field starts null. */
  datatype Report = Report(
    os: Option<OsInfo>,
    windowsFirewall: Option<WindowsFirewallInfo>,
    antivirus: Option<AntivirusInfo>,
    firewall: Option<FirewallInfo>,
    message: Option<string>)

  const NewReport := Report(None, None, None, None, None)

  /** The message text, a null message reading as "" (as `+=` reads it). */
  function MessageText(r: Report): string {
    r.message.GetOr("")
  }

  /** `Message += text`. */
  function Append(r: Report, text: string): Report {
    r.(message := Some(MessageText(r) + text))
  }

  /** How a step of `Run` ends: the report it leaves and whether it threw. */
  datatype Step = Step(report: Report, outcome: Outcome)

  /** The exceptions a WMI query and the conversions of its values throw. */
  predicate QueryFailure(e: Exception) {
    e == ManagementError || e == NullReference || e == FormatError || e == Overflow
  }

  const AntivirusNotInstalledMessage := "Antivirus product not installed.\n"
  const AntivirusUnknownMessage := "Antivirus product state could not be retrieved."
  const FirewallProductNotInstalledMessage := "Third party firewall product not installed.\n"
  const FirewallProductUnknownMessage := "Third party firewall state could not be retrieved.\n"
  const UnknownFirewallProfileMessage := "Unknown Windows Firewall state."
  const FirewallUndeterminedMessage := "Windows firewall state cannot be determined.\n"
  const CompletedMessage := "Command completed."

  /** `r` and `s` differ at most in the antivirus entry and the message,
      and `r`'s message is a prefix of `s`'s. */
  predicate OnlyAntivirusAndMessage(r: Report, s: Report) {
    && s.os == r.os && s.windowsFirewall == r.windowsFirewall && s.firewall == r.firewall
    && MessageText(r) <= MessageText(s)
  }

  /** The antivirus entry a product object yields: its display name and
      its two decoded flags, when all three properties are present and
      every read succeeds. */
  function AntivirusRecord(product: WmiObject, useLatestWsc: bool): Option<AntivirusInfo> {
    var displayName := FindProperty(product, "displayName");
    var enabled := FindProperty(product, EnabledPropertyName(useLatestWsc));
    var updated := FindProperty(product, UpdatedPropertyName(useLatestWsc));
    if displayName.None? || enabled.None? || updated.None? then None
    else
      match (ReadEnabled(enabled.value, useLatestWsc), ReadUpdated(updated.value, useLatestWsc), DisplayString(displayName.value))
      case (Ok(isEnabled), Ok(isUpdated), Ok(name)) => Some(AntivirusInfo(Some(name), isEnabled, isUpdated))
      case _ => None
  }

  /** The antivirus entry the first product of a reply yields, if any. */
  function RecordedAntivirus(reply: WmiReply, useLatestWsc: bool): Option<AntivirusInfo> {
    if reply.Objects? && reply.items != [] then AntivirusRecord(reply.items[0], useLatestWsc) else None
  }

  /** `LoadWscAntivirusProductInfo` on the reply of the query for
      antivirus products. */
  function AntivirusStep(r: Report, useLatestWsc: bool, reply: WmiReply): (s: Step)
    ensures OnlyAntivirusAndMessage(r, s.report)
    ensures RecordedAntivirus(reply, useLatestWsc).Some? ==>
              s == Step(r.(antivirus := RecordedAntivirus(reply, useLatestWsc)), Pass)
    ensures s.outcome.Pass? ==>
              s.report.antivirus == if RecordedAntivirus(reply, useLatestWsc).Some? then RecordedAntivirus(reply, useLatestWsc)
                                    else r.antivirus
    ensures reply.QueryFailed? ==> s == Step(r, Fail(ManagementError))
    ensures s.report.antivirus != r.antivirus ==> reply.Objects? && |reply.items| >= 1
    ensures s.outcome.Pass? ==> (s.report.antivirus.Some? && s.report.antivirus.value.displayName.Some?)
                                || |MessageText(s.report)| > |MessageText(r)|
    ensures s.outcome.Fail? ==> s.report.message == r.message && QueryFailure(s.outcome.error)
    ensures reply.Objects? && reply.items == [] ==> s == Step(Append(r, AntivirusNotInstalledMessage), Pass)
  {
    match reply
    case QueryFailed => Step(r, Fail(ManagementError))
    case Objects(items) =>
      if items == [] then Step(Append(r, AntivirusNotInstalledMessage), Pass)
      else
        var product := items[0];
        var displayName := FindProperty(product, "displayName");
        var enabled := FindProperty(product, EnabledPropertyName(useLatestWsc));
        var updated := FindProperty(product, UpdatedPropertyName(useLatestWsc));
        assert RecordedAntivirus(reply, useLatestWsc) == AntivirusRecord(product, useLatestWsc);
        if displayName.None? || enabled.None? || updated.None? then Step(Append(r, AntivirusUnknownMessage), Pass)
        else
          match ReadEnabled(enabled.value, useLatestWsc)
          case Err(e) => Step(r, Fail(e))
          case Ok(isEnabled) =>
            match ReadUpdated(updated.value, useLatestWsc)
            case Err(e) => Step(r, Fail(e))
            case Ok(isUpdated) =>
              match DisplayString(displayName.value)
              case Err(e) => Step(r.(antivirus := Some(AntivirusInfo(None, false, false))), Fail(e))
              case Ok(name) =>
                assert AntivirusRecord(product, useLatestWsc) == Some(AntivirusInfo(Some(name), isEnabled, isUpdated));
                Step(r.(antivirus := Some(AntivirusInfo(Some(name), isEnabled, isUpdated))), Pass)
  }

  /** Only the first antivirus product counts; the others are ignored. */
  lemma OnlyFirstAntivirusProduct(r: Report, useLatestWsc: bool, first: WmiObject, others: seq<WmiObject>)
    ensures AntivirusStep(r, useLatestWsc, Objects([first] + others)) == AntivirusStep(r, useLatestWsc, Objects([first]))
  {
    assert ([first] + others)[0] == [first][0];
  }

  /** `r` and `s` differ at most in the firewall-product entry and the
      message, and `r`'s message is a prefix of `s`'s. */
  predicate OnlyFirewallAndMessage(r: Report, s: Report) {
    && s.os == r.os && s.windowsFirewall == r.windowsFirewall && s.antivirus == r.antivirus
    && MessageText(r) <= MessageText(s)
  }

  /** The firewall-product entry a product object yields: its display
      name and its decoded flag, when both properties are present and every
      read succeeds. */
  function FirewallRecord(product: WmiObject, useLatestWsc: bool): Option<FirewallInfo> {
    var displayName := FindProperty(product, "displayName");
    var enabled := FindProperty(product, EnabledPropertyName(useLatestWsc));
    if displayName.None? || enabled.None? then None
    else
      match (ReadEnabled(enabled.value, useLatestWsc), DisplayString(displayName.value))
      case (Ok(isEnabled), Ok(name)) => Some(FirewallInfo(Some(name), isEnabled))
      case _ => None
  }

  /** The firewall-product entry the first product of a reply yields, if any. */
  function RecordedFirewall(reply: WmiReply, useLatestWsc: bool): Option<FirewallInfo> {
    if reply.Objects? && reply.items != [] then FirewallRecord(reply.items[0], useLatestWsc) else None
  }

  /** `LoadWscFirewallProductInfo` on the reply of the query for
      third-party firewall products. */
  function FirewallProductStep(r: Report, useLatestWsc: bool, reply: WmiReply): (s: Step)
    ensures OnlyFirewallAndMessage(r, s.report)
    ensures RecordedFirewall(reply, useLatestWsc).Some? ==>
              s == Step(r.(firewall := RecordedFirewall(reply, useLatestWsc)), Pass)
    ensures s.outcome.Pass? ==>
              s.report.firewall == if RecordedFirewall(reply, useLatestWsc).Some? then RecordedFirewall(reply, useLatestWsc)
                                   else r.firewall
    ensures reply.QueryFailed? ==> s == Step(r, Fail(ManagementError))
    ensures s.report.firewall != r.firewall ==> reply.Objects? && |reply.items| >= 1
    ensures s.outcome.Pass? ==> (s.report.firewall.Some? && s.report.firewall.value.displayName.Some?)
                                || |MessageText(s.report)| > |MessageText(r)|
    ensures s.outcome.Fail? ==> s.report.message == r.message && QueryFailure(s.outcome.error)
    ensures reply.Objects? && reply.items == [] ==> s == Step(Append(r, FirewallProductNotInstalledMessage), Pass)
  {
    match reply
    case QueryFailed => Step(r, Fail(ManagementError))
    case Objects(items) =>
      if items == [] then Step(Append(r, FirewallProductNotInstalledMessage), Pass)
      else
        var product := items[0];
        var displayName := FindProperty(product, "displayName");
        var enabled := FindProperty(product, EnabledPropertyName(useLatestWsc));
        assert RecordedFirewall(reply, useLatestWsc) == FirewallRecord(product, useLatestWsc);
        if displayName.None? || enabled.None? then Step(Append(r, FirewallProductUnknownMessage), Pass)
        else
          match ReadEnabled(enabled.value, useLatestWsc)
          case Err(e) => Step(r, Fail(e))
          case Ok(isEnabled) =>
            match DisplayString(displayName.value)
            case Err(e) => Step(r.(firewall := Some(FirewallInfo(None, false))), Fail(e))
            case Ok(name) =>
              assert FirewallRecord(product, useLatestWsc) == Some(FirewallInfo(Some(name), isEnabled));
              Step(r.(firewall := Some(FirewallInfo(Some(name), isEnabled))), Pass)
  }

  /** Only the first firewall product counts; the others are ignored. */
  lemma OnlyFirstFirewallProduct(r: Report, useLatestWsc: bool, first: WmiObject, others: seq<WmiObject>)
    ensures FirewallProductStep(r, useLatestWsc, Objects([first] + others)) == FirewallProductStep(r, useLatestWsc, Objects([first]))
  {
    assert ([first] + others)[0] == [first][0];
  }

  // ---------------------------------------------------------------------
  // The Windows firewall

  /** What creating `HNetCfg.FwMgr` gives: the text of the exception the
      creation threw, or the manager's current profile type and that
      profile's enabled flag. */
  datatype ManagerReply = ManagerUnavailable(exceptionText: string) | Manager(profileType: int, currentProfileEnabled: bool)

  /** What creating `HNetCfg.FwPolicy2` gives: the text of the exception
      the creation threw, or the current profile-type bits and the enabled
      flag of the domain, private and public profiles. */
  datatype PolicyReply =
    | PolicyUnavailable(exceptionText: string)
    | Policy(profileTypes: Int32, domainEnabled: bool, privateEnabled: bool, publicEnabled: bool)

  /** The firewall COM objects as the command sees them. */
  datatype FirewallHost = FirewallHost(manager: ManagerReply, policy: PolicyReply)

  /** NET_FW_PROFILE_TYPE_. */
  const NetFwProfileDomain := 0
  const NetFwProfileStandard := 1

  /** NET_FW_PROFILE_TYPE2_. */
  const NetFwProfile2Domain: bv32 := 1
  const NetFwProfile2Private: bv32 := 2
  const NetFwProfile2Public: bv32 := 4
  const NetFwProfile2All: Int32 := 0x7FFF_FFFF

  /** `(profiles & flag) == flag`. */
  predicate HasProfile(profiles: Int32, flag: bv32) {
    (ToUInt32(profiles) as bv32) & flag == flag
  }

  /** What a `GetWindowsFirewall*Settings` call returns, with the text it
      appended to the message on the way (if any). */
  datatype Settings = Settings(info: Option<WindowsFirewallInfo>, note: Option<string>)

  /** `string.Format(format, arg)` for a format whose only braces are format
      items `{d}` of one digit: item 0 is replaced by `arg`; any other item
      is outside the one-element argument list and throws.  The escapes
      `{{` and `}}`, a lone `}` and items with alignment or format parts
      are not modelled (a `{` that does not open an item throws here); the
      formats this is applied to contain none of them. */
  function FormatOneArg(format: string, arg: string): (r: Result<string>)
    ensures r.Err? ==> r.error == FormatError
    decreases |format|
  {
    if format == [] then Ok([])
    else if format[0] == '{' then
      if |format| >= 3 && IsDigit(format[1]) && format[2] == '}' && format[1] == '0' then
        match FormatOneArg(format[3..], arg)
        case Ok(rest) => Ok(arg + rest)
        case Err(e) => Err(e)
      else Err(FormatError)
    else
      match FormatOneArg(format[1..], arg)
      case Ok(rest) => Ok([format[0]] + rest)
      case Err(e) => Err(e)
  }

  /** A format that ends in the item `{1}` throws, whatever comes before
      it: either an earlier item already throws, or the scan reaches `{1}`. */
  lemma {:induction false} TrailingItemOneThrows(prefix: string, arg: string)
    ensures FormatOneArg(prefix + "{1}", arg) == Err(FormatError)
    decreases |prefix|
  {
    var format := prefix + "{1}";
    if prefix == [] {
      assert format == "{1}" && format[1] == '1';
    } else if prefix[0] != '{' {
      assert format[0] == prefix[0] && format[1..] == prefix[1..] + "{1}";
      TrailingItemOneThrows(prefix[1..], arg);
    } else if |prefix| >= 3 && IsDigit(prefix[1]) && prefix[2] == '}' && prefix[1] == '0' {
      assert format[..3] == prefix[..3] && format[3..] == prefix[3..] + "{1}";
      TrailingItemOneThrows(prefix[3..], arg);
    } else {
      assert format[0] == '{';
      assert |prefix| == 1 ==> format[1] == '{';
      assert |prefix| == 2 ==> format[2] == '{';
      assert |prefix| >= 3 ==> format[..3] == prefix[..3];
    }
  }

  const ManagerFailureFormat := "Failed to instantiate Windows Firewall manager with the following exception:\n{1}"
  const PolicyFailureFormat := "Failed to instantiate Windows firewall policy with the following exception:\n{1}"
  const InconclusiveProfileFormat := "Inconclusive Windows firewall profile type: {1}"

  /** The three format strings name item 1 though each is given one argument. */
  lemma FormatsNameItemOne(arg: string)
    ensures FormatOneArg(ManagerFailureFormat, arg) == Err(FormatError)
    ensures FormatOneArg(PolicyFailureFormat, arg) == Err(FormatError)
    ensures FormatOneArg(InconclusiveProfileFormat, arg) == Err(FormatError)
  {
    var m := "Failed to instantiate Windows Firewall manager with the following exception:\n";
    var p := "Failed to instantiate Windows firewall policy with the following exception:\n";
    var i := "Inconclusive Windows firewall profile type: ";
    assert ManagerFailureFormat == m + "{1}";
    assert PolicyFailureFormat == p + "{1}";
    assert InconclusiveProfileFormat == i + "{1}";
    TrailingItemOneThrows(m, arg);
    TrailingItemOneThrows(p, arg);
    TrailingItemOneThrows(i, arg);
  }

  /** How the enum value NET_FW_PROFILE2_ALL is written by `ToString`. */
  const NetFwProfile2AllName := "NET_FW_PROFILE2_ALL"

  /** `GetWindowsFirewallManagerSettings` with the failure logged: no
      manager gives null; the domain and standard profiles fill their own
      field; any other profile type leaves every field unset and notes an
      unknown state. */
  function ManagerSettings(manager: ManagerReply): (s: Settings)
    ensures s.info.None? <==> manager.ManagerUnavailable?
    ensures manager.Manager? && manager.profileType == NetFwProfileDomain ==>
              s == Settings(Some(NoFirewallFields.(domainEnabled := Some(manager.currentProfileEnabled))), None)
    ensures manager.Manager? && manager.profileType == NetFwProfileStandard ==>
              s == Settings(Some(NoFirewallFields.(standardEnabled := Some(manager.currentProfileEnabled))), None)
    ensures manager.Manager? && manager.profileType !in {NetFwProfileDomain, NetFwProfileStandard} ==>
              s == Settings(Some(NoFirewallFields), Some(UnknownFirewallProfileMessage))
  {
    match manager
    case ManagerUnavailable(_) => Settings(None, None)
    case Manager(profileType, enabled) =>
      if profileType == NetFwProfileDomain then Settings(Some(NoFirewallFields.(domainEnabled := Some(enabled))), None)
      else if profileType == NetFwProfileStandard then Settings(Some(NoFirewallFields.(standardEnabled := Some(enabled))), None)
      else Settings(Some(NoFirewallFields), Some(UnknownFirewallProfileMessage))
  }

  /** `GetWindowsFirewallManagerSettings` as written: when the manager
      cannot be created, formatting the error message throws a
      FormatException; otherwise it gives what `ManagerSettings` gives. */
  function ManagerSettingsAsWritten(manager: ManagerReply): (r: Result<Settings>)
    ensures r.Err? <==> manager.ManagerUnavailable?
    ensures r.Err? ==> r.error == FormatError
    ensures r.Ok? ==> r.value == ManagerSettings(manager)
  {
    match manager
    case ManagerUnavailable(text) =>
      FormatsNameItemOne(text);
      (match FormatOneArg(ManagerFailureFormat, text)
       case Err(e) => Err(e)
       case Ok(_) => Ok(Settings(None, None)))
    case Manager(_, _) => Ok(ManagerSettings(manager))
  }

  /** The profiles present in `profiles` fill their own fields. */
  function PolicyFields(policy: PolicyReply): WindowsFirewallInfo
    requires policy.Policy?
  {
    var p := policy.profileTypes;
    WindowsFirewallInfo(
      if HasProfile(p, NetFwProfile2Domain) then Some(policy.domainEnabled) else None,
      None,
      if HasProfile(p, NetFwProfile2Private) then Some(policy.privateEnabled) else None,
      if HasProfile(p, NetFwProfile2Public) then Some(policy.publicEnabled) else None)
  }

  /** `GetWindowsFirewallPolicySettings` with the failures logged: no
      policy, or the profile type NET_FW_PROFILE2_ALL, gives null; otherwise
      each of the domain, private and public bits that is set fills its own
      field and only that one. */
  function PolicySettings(policy: PolicyReply): (r: Option<WindowsFirewallInfo>)
    ensures r.None? <==> policy.PolicyUnavailable? || policy.profileTypes == NetFwProfile2All
    ensures r.Some? ==> && r.value.standardEnabled.None?
                        && (r.value.domainEnabled.Some? <==> HasProfile(policy.profileTypes, NetFwProfile2Domain))
                        && (r.value.privateEnabled.Some? <==> HasProfile(policy.profileTypes, NetFwProfile2Private))
                        && (r.value.publicEnabled.Some? <==> HasProfile(policy.profileTypes, NetFwProfile2Public))
                        && (r.value.domainEnabled.Some? ==> r.value.domainEnabled.value == policy.domainEnabled)
                        && (r.value.privateEnabled.Some? ==> r.value.privateEnabled.value == policy.privateEnabled)
                        && (r.value.publicEnabled.Some? ==> r.value.publicEnabled.value == policy.publicEnabled)
  {
    match policy
    case PolicyUnavailable(_) => None
    case Policy(p, _, _, _) => if p == NetFwProfile2All then None else Some(PolicyFields(policy))
  }

  /** `GetWindowsFirewallPolicySettings` as written: when the policy cannot
      be created, or its profile type is NET_FW_PROFILE2_ALL, formatting the
      log message throws a FormatException; otherwise it gives what
      `PolicySettings` gives. */
  function PolicySettingsAsWritten(policy: PolicyReply): (r: Result<Option<WindowsFirewallInfo>>)
    ensures r.Err? <==> policy.PolicyUnavailable? || policy.profileTypes == NetFwProfile2All
    ensures r.Err? ==> r.error == FormatError
    ensures r.Ok? ==> r.value == PolicySettings(policy)
  {
    match policy
    case PolicyUnavailable(text) =>
      FormatsNameItemOne(text);
      (match FormatOneArg(PolicyFailureFormat, text)
       case Err(e) => Err(e)
       case Ok(_) => Ok(None))
    case Policy(p, _, _, _) =>
      if p == NetFwProfile2All then
        FormatsNameItemOne(NetFwProfile2AllName);
        match FormatOneArg(InconclusiveProfileFormat, NetFwProfile2AllName)
        case Err(e) => Err(e)
        case Ok(_) => Ok(None)
      else Ok(Some(PolicyFields(policy)))
  }

  /** Which firewall logging a run uses: the code as written, whose three
      format strings throw, or the corrected one that logs and goes on. */
  datatype Logging = AsWritten | Corrected

  /** The as-written firewall load throws: the COM object it needs cannot
      be created, or (from Windows 6 on) the profile type is
      NET_FW_PROFILE2_ALL. */
  predicate FirewallLoadThrows(major: int, host: FirewallHost) {
    if major < 6 then host.manager.ManagerUnavailable?
    else host.policy.PolicyUnavailable? || host.policy.profileTypes == NetFwProfile2All
  }

  /** The Windows firewall entry of a load that does not throw: the
      manager's before Windows 6, the policy's from it on. */
  function FirewallEntry(major: int, host: FirewallHost): Option<WindowsFirewallInfo> {
    if major < 6 then ManagerSettings(host.manager).info else PolicySettings(host.policy)
  }

  /** The settings `LoadWindowsFirewallInfo` obtains, with the logging
      `logging`: the as-written logging throws exactly where the load
      throws, and otherwise both agree. */
  function FirewallSettings(major: int, host: FirewallHost, logging: Logging): (r: Result<Settings>)
    ensures r.Err? <==> logging.AsWritten? && FirewallLoadThrows(major, host)
    ensures r.Err? ==> r.error == FormatError
    ensures r.Ok? ==> r.value.info == FirewallEntry(major, host)
    ensures r.Ok? && major >= 6 ==> r.value.note.None?
  {
    if major < 6 then
      if logging.AsWritten? then ManagerSettingsAsWritten(host.manager) else Ok(ManagerSettings(host.manager))
    else
      var info := if logging.AsWritten? then PolicySettingsAsWritten(host.policy) else Ok(PolicySettings(host.policy));
      match info
      case Err(e) => Err(e)
      case Ok(i) => Ok(Settings(i, None))
  }

  /** `LoadWindowsFirewallInfo`: before Windows 6 the firewall manager, from
      it on the firewall policy; a null answer is reported in the message.
      As written, a load that throws leaves the report as it was. */
  function WindowsFirewallStep(r: Report, major: int, host: FirewallHost, logging: Logging): (s: Step)
    ensures s.outcome.Fail? <==> logging.AsWritten? && FirewallLoadThrows(major, host)
    ensures s.outcome.Fail? ==> s == Step(r, Fail(FormatError))
    ensures s.report.os == r.os && s.report.antivirus == r.antivirus && s.report.firewall == r.firewall
    ensures s.outcome.Pass? ==> s.report.windowsFirewall == FirewallEntry(major, host)
    ensures s.outcome.Pass? ==>
              (s.report.windowsFirewall.None? <==> MessageText(s.report) == MessageText(r) + FirewallUndeterminedMessage)
    ensures s.outcome.Pass? && major < 6 && host.manager.Manager? && host.manager.profileType !in {NetFwProfileDomain, NetFwProfileStandard} ==>
              MessageText(s.report) == MessageText(r) + UnknownFirewallProfileMessage
    ensures s.outcome.Pass? && s.report.windowsFirewall.Some? && !(major < 6 && host.manager.Manager? && host.manager.profileType !in {NetFwProfileDomain, NetFwProfileStandard}) ==>
              MessageText(s.report) == MessageText(r)
  {
    match FirewallSettings(major, host, logging)
    case Err(e) => Step(r, Fail(e))
    case Ok(settings) =>
      var noted := if settings.note.Some? then Append(r, settings.note.value) else r;
      var stored := noted.(windowsFirewall := settings.info);
      if settings.info.None? then Step(Append(stored, FirewallUndeterminedMessage), Pass)
      else
        assert settings.note.Some? ==> |MessageText(stored)| > |MessageText(r)| + 0;
        Step(stored, Pass)
  }

  /** The as-written logging throws out of `LoadWindowsFirewallInfo` in the
      three cases where the firewall state cannot be read; with the format
      corrected, those cases leave the Windows firewall unset and say so in
      the message, and a whole run differs nowhere else. */
  lemma CorrectedFirewallFailures(r: Report, host: AmbientHost)
    ensures var major := host.os.version.major;
            FirewallLoadThrows(major, host.firewall) ==>
              && WindowsFirewallStep(r, major, host.firewall, AsWritten) == Step(r, Fail(FormatError))
              && WindowsFirewallStep(r, major, host.firewall, Corrected)
                 == Step(Append(r.(windowsFirewall := None), FirewallUndeterminedMessage), Pass)
    ensures !FirewallLoadThrows(host.os.version.major, host.firewall) ==>
              RunReport(host, AsWritten) == RunReport(host, Corrected)
  {
    var major := host.os.version.major;
    if FirewallLoadThrows(major, host.firewall) {
      var s := WindowsFirewallStep(r, major, host.firewall, Corrected);
      assert s.report.windowsFirewall == None;
      assert FirewallSettings(major, host.firewall, Corrected).value.note.None?;
    } else {
      var withOs := NewReport.(os := Some(host.os));
      assert FirewallSettings(major, host.firewall, AsWritten) == FirewallSettings(major, host.firewall, Corrected);
      assert WindowsFirewallStep(withOs, major, host.firewall, AsWritten) == WindowsFirewallStep(withOs, major, host.firewall, Corrected);
    }
  }

  /** As written, a load that does not throw always records a Windows
      firewall entry: a null result only ever comes with a FormatException,
      so the "cannot be determined" line is never added. */
  lemma AsWrittenNeverUndetermined(r: Report, major: int, host: FirewallHost)
    ensures var s := WindowsFirewallStep(r, major, host, AsWritten);
            s.outcome.Pass? ==>
              && s.report.windowsFirewall.Some?
              && (MessageText(s.report) == MessageText(r) || MessageText(s.report) == MessageText(r) + UnknownFirewallProfileMessage)
  {
    var s := WindowsFirewallStep(r, major, host, AsWritten);
    if s.outcome.Pass? {
      var settings := FirewallSettings(major, host, AsWritten).value;
      assert s.report.windowsFirewall == settings.info;
    }
  }

  // ---------------------------------------------------------------------
  // The command

  /** Everything the command reads from its host. */
  datatype AmbientHost = AmbientHost(
    os: OsInfo,
    firewall: FirewallHost,
    wmi: (string, string) -> WmiReply)

  /** `Run` after `Result = new AmbientReportResult()`: the four loads in
      order, stopping at the first that throws, then the closing line.  The
      code as written is `RunReport(host, AsWritten)`. */
  function RunReport(host: AmbientHost, logging: Logging): (s: Step)
    ensures s.report.os == Some(host.os)
    ensures s.outcome.Pass? ==> EndsWith(MessageText(s.report), CompletedMessage)
    ensures s.outcome.Fail? ==> QueryFailure(s.outcome.error)
    ensures logging.AsWritten? && FirewallLoadThrows(host.os.version.major, host.firewall) ==>
              s == Step(NewReport.(os := Some(host.os)), Fail(FormatError))
    ensures s.outcome.Pass? ==>
              var useLatestWsc := UseLatestWsc(host.os.version);
              && s.report.windowsFirewall == FirewallEntry(host.os.version.major, host.firewall)
              && s.report.antivirus == RecordedAntivirus(host.wmi(WscScope(useLatestWsc), AntivirusQuery), useLatestWsc)
              && s.report.firewall == RecordedFirewall(host.wmi(WscScope(useLatestWsc), FirewallProductQuery), useLatestWsc)
  {
    var useLatestWsc := UseLatestWsc(host.os.version);
    var scope := WscScope(useLatestWsc);
    var withOs := NewReport.(os := Some(host.os));
    var windowsFirewall := WindowsFirewallStep(withOs, host.os.version.major, host.firewall, logging);
    if windowsFirewall.outcome.Fail? then windowsFirewall
    else
      var antivirus := AntivirusStep(windowsFirewall.report, useLatestWsc, host.wmi(scope, AntivirusQuery));
      if antivirus.outcome.Fail? then antivirus
      else
        var firewall := FirewallProductStep(antivirus.report, useLatestWsc, host.wmi(scope, FirewallProductQuery));
        if firewall.outcome.Fail? then firewall
        else
          EndsWithAppended(MessageText(firewall.report), CompletedMessage);
          Step(Append(firewall.report, CompletedMessage), Pass)
  }

  /** A host with no security products whose firewall policy reports
      NET_FW_PROFILE2_ALL: as written, the run throws a FormatException
      right after the OS is recorded; with the corrected logging it
      completes and its message says so, line by line. */
  lemma InconclusiveProfileStopsRun(os: OsInfo, enabled: bool)
    requires os.version.major >= 6
    ensures var host := AmbientHost(os, FirewallHost(ManagerUnavailable(""), Policy(NetFwProfile2All, enabled, enabled, enabled)),
                                     (scope, query) => Objects([]));
            && RunReport(host, AsWritten) == Step(NewReport.(os := Some(os)), Fail(FormatError))
            && RunReport(host, Corrected) == Step(Report(Some(os), None, None, None,
                                                         Some(FirewallUndeterminedMessage + AntivirusNotInstalledMessage
                                                              + FirewallProductNotInstalledMessage + CompletedMessage)), Pass)
  {
    var host := AmbientHost(os, FirewallHost(ManagerUnavailable(""), Policy(NetFwProfile2All, enabled, enabled, enabled)),
                            (scope, query) => Objects([]));
    var r1 := NewReport.(os := Some(os));
    var s2 := WindowsFirewallStep(r1, os.version.major, host.firewall, Corrected);
    assert FirewallSettings(os.version.major, host.firewall, Corrected) == Ok(Settings(None, None));
    assert s2 == Step(Append(r1, FirewallUndeterminedMessage), Pass);
    assert MessageText(r1) == "";
    assert "" + FirewallUndeterminedMessage == FirewallUndeterminedMessage;
  }

  /** A host with no security products on the private profile: the run
      completes, the private profile's flag alone is recorded, and the
      message lists the missing products and the closing line. */
  lemma NothingInstalled(os: OsInfo, domain: bool, private: bool, public: bool)
    requires os.version.major >= 6
    ensures var host := AmbientHost(os, FirewallHost(ManagerUnavailable(""), Policy(2, domain, private, public)),
                                     (scope, query) => Objects([]));
            RunReport(host, AsWritten) == Step(Report(Some(os), Some(WindowsFirewallInfo(None, None, Some(private), None)), None, None,
                                                      Some(AntivirusNotInstalledMessage + FirewallProductNotInstalledMessage
                                                           + CompletedMessage)), Pass)
  {
    var policy := Policy(2, domain, private, public);
    var host := AmbientHost(os, FirewallHost(ManagerUnavailable(""), policy), (scope, query) => Objects([]));
    assert ToUInt32(2) == 2;
    assert !HasProfile(2, NetFwProfile2Domain) && HasProfile(2, NetFwProfile2Private) && !HasProfile(2, NetFwProfile2Public);
    assert PolicySettings(policy) == Some(WindowsFirewallInfo(None, None, Some(private), None));
    var r1 := NewReport.(os := Some(os));
    var s2 := WindowsFirewallStep(r1, os.version.major, host.firewall, AsWritten);
    assert s2 == Step(r1.(windowsFirewall := PolicySettings(policy)), Pass);
    assert MessageText(s2.report) == "";
    assert "" + AntivirusNotInstalledMessage == AntivirusNotInstalledMessage;
  }

  class AmbientReportCommand {
    var state: CommandState
    var result: Option<Report>

    constructor ()
      ensures state == NotStarted && result == None
    {
      state := NotStarted;
      result := None;
    }

    /** The `Parameters` getter: the command takes no parameters. */
    function Parameters(): (p: Option<string>)
      ensures p.None?
    {
      None
    }

    /** `ReadParameters` ignores its input. */
    method ReadParameters(json: Option<string>)
      ensures state == old(state) && result == old(result)
    {
    }

    /** `LoadOsInfo`. */
    method LoadOsInfo(os: OsInfo)
      requires result.Some?
      modifies this
      ensures state == old(state)
      ensures result == Some(old(result.value).(os := Some(os)))
    {
      result := Some(result.value.(os := Some(os)));
    }

    /** `LoadWindowsFirewallInfo`, for the Windows major version `major`,
        with the logging as written: a failure to read the firewall state
        throws out of it. */
    method LoadWindowsFirewallInfo(major: int, host: FirewallHost) returns (outcome: Outcome)
      requires result.Some?
      modifies this
      ensures state == old(state)
      ensures result.Some? && Step(result.value, outcome) == WindowsFirewallStep(old(result.value), major, host, AsWritten)
    {
      var settings: Settings;
      if major < 6 {
        var managerSettings := ManagerSettingsAsWritten(host.manager);
        if managerSettings.Err? {
          return Fail(managerSettings.error);
        }
        settings := managerSettings.value;
      } else {
        var policySettings := PolicySettingsAsWritten(host.policy);
        if policySettings.Err? {
          return Fail(policySettings.error);
        }
        settings := Settings(policySettings.value, None);
      }
      var report := result.value;
      if settings.note.Some? {
        report := Append(report, settings.note.value);
      }
      report := report.(windowsFirewall := settings.info);
      if report.windowsFirewall.None? {
        report := Append(report, FirewallUndeterminedMessage);
      }
      result := Some(report);
      outcome := Pass;
    }

    /** `LoadWscAntivirusProductInfo`. */
    method LoadWscAntivirusProductInfo(version: Version, wmi: (string, string) -> WmiReply) returns (outcome: Outcome)
      requires result.Some?
      modifies this
      ensures state == old(state) && result.Some?
      ensures var useLatestWsc := UseLatestWsc(version);
              Step(result.value, outcome) == AntivirusStep(old(result.value), useLatestWsc, wmi(WscScope(useLatestWsc), AntivirusQuery))
    {
      var useLatestWsc := AtLeast(version, VistaSp1Version);
      var scope := if useLatestWsc then SecurityCenter2Scope else SecurityCenterScope;
      var wmiResponse := wmi(scope, AntivirusQuery);
      if wmiResponse.QueryFailed? {
        return Fail(ManagementError);
      }
      if |wmiResponse.items| == 0 {
        result := Some(Append(result.value, AntivirusNotInstalledMessage));
        return Pass;
      }
      var foundAvProduct := wmiResponse.items[0];
      var enabledPropertyName := if useLatestWsc then "productState" else "onAccessScanningEnabled";
      var updatedPropertyName := if useLatestWsc then "productState" else "productUptoDate";
      var displayNameProperty := FindProperty(foundAvProduct, "displayName");
      var enabledProperty := FindProperty(foundAvProduct, enabledPropertyName);
      var updatedProperty := FindProperty(foundAvProduct, updatedPropertyName);
      if displayNameProperty.None? || enabledProperty.None? || updatedProperty.None? {
        result := Some(Append(result.value, AntivirusUnknownMessage));
        return Pass;
      }
      var enabledPropertyValue := if useLatestWsc then DecodeWsc2ProductEnabledState(enabledProperty.value)
                                  else ToBoolean(enabledProperty.value);
      if enabledPropertyValue.Err? {
        return Fail(enabledPropertyValue.error);
      }
      var updatedPropertyValue := if useLatestWsc then DecodeWsc2ProductUpdatedState(updatedProperty.value)
                                  else ToBoolean(updatedProperty.value);
      if updatedPropertyValue.Err? {
        return Fail(updatedPropertyValue.error);
      }
      result := Some(result.value.(antivirus := Some(AntivirusInfo(None, false, false))));
      var displayName := DisplayString(displayNameProperty.value);
      if displayName.Err? {
        return Fail(displayName.error);
      }
      var info := result.value.antivirus.value;
      info := info.(displayName := Some(displayName.value));
      info := info.(enabled := enabledPropertyValue.value);
      info := info.(updated := updatedPropertyValue.value);
      result := Some(result.value.(antivirus := Some(info)));
      outcome := Pass;
    }

    /** `LoadWscFirewallProductInfo`. */
    method LoadWscFirewallProductInfo(version: Version, wmi: (string, string) -> WmiReply) returns (outcome: Outcome)
      requires result.Some?
      modifies this
      ensures state == old(state) && result.Some?
      ensures var useLatestWsc := UseLatestWsc(version);
              Step(result.value, outcome) == FirewallProductStep(old(result.value), useLatestWsc, wmi(WscScope(useLatestWsc), FirewallProductQuery))
    {
      var useLatestWsc := AtLeast(version, VistaSp1Version);
      var scope := if useLatestWsc then SecurityCenter2Scope else SecurityCenterScope;
      var wmiResponse := wmi(scope, FirewallProductQuery);
      if wmiResponse.QueryFailed? {
        return Fail(ManagementError);
      }
      if |wmiResponse.items| == 0 {
        result := Some(Append(result.value, FirewallProductNotInstalledMessage));
        return Pass;
      }
      var foundFirewallProduct := wmiResponse.items[0];
      var enabledPropertyName := if useLatestWsc then "productState" else "onAccessScanningEnabled";
      var displayNameProperty := FindProperty(foundFirewallProduct, "displayName");
      var enabledProperty := FindProperty(foundFirewallProduct, enabledPropertyName);
      if displayNameProperty.None? || enabledProperty.None? {
        result := Some(Append(result.value, FirewallProductUnknownMessage));
        return Pass;
      }
      var enabledPropertyValue := if useLatestWsc then DecodeWsc2ProductEnabledState(enabledProperty.value)
                                  else ToBoolean(enabledProperty.value);
      if enabledPropertyValue.Err? {
        return Fail(enabledPropertyValue.error);
      }
      result := Some(result.value.(firewall := Some(FirewallInfo(None, false))));
      var displayName := DisplayString(displayNameProperty.value);
      if displayName.Err? {
        return Fail(displayName.error);
      }
      var info := result.value.firewall.value;
      info := info.(displayName := Some(displayName.value));
      info := info.(enabled := enabledPropertyValue.value);
      result := Some(result.value.(firewall := Some(info)));
      outcome := Pass;
    }

    /** `Run`: Running first; a fresh report filled by the four loads; the
        closing line and Completed last.  A load that throws leaves the
        state at Running and the report as far as it got. */
    method Run(host: AmbientHost) returns (outcome: Outcome)
      modifies this
      ensures result.Some? && Step(result.value, outcome) == RunReport(host, AsWritten)
      ensures state == if outcome.Pass? then Completed else Running
      ensures FirewallLoadThrows(host.os.version.major, host.firewall) ==>
                outcome == Fail(FormatError) && state == Running && result == Some(NewReport.(os := Some(host.os)))
    {
      state := Running;
      result := Some(NewReport);

      LoadOsInfo(host.os);
      outcome := LoadWindowsFirewallInfo(host.os.version.major, host.firewall);
      if outcome.Fail? {
        return;
      }
      outcome := LoadWscAntivirusProductInfo(host.os.version, host.wmi);
      if outcome.Fail? {
        return;
      }
      outcome := LoadWscFirewallProductInfo(host.os.version, host.wmi);
      if outcome.Fail? {
        return;
      }

      result := Some(Append(result.value, CompletedMessage));
      state := Completed;
    }
  }
}
