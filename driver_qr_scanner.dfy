/** The driver look-up by QR code: a typed or demo code of the form `DRIVER-<id>` is
    matched, its number parsed, and the driver with that id shown or an error set. */
module DriverQRScanner {
  import opened Common
  import opened DriversPage

  /** The scanner's own table of four drivers; the routes are written as
      "origin to destination" here, unlike the directory's table. */
  function QrDrivers(): (ds: seq<Driver>)
    ensures |ds| == 4
    ensures forall k :: 0 <= k < |ds| ==> ds[k].id == k + 1
  {
    [Driver(1, "Juan Dela Cruz", "N01-12-345678", "Suarez to Poblacion", 48, 1250, 8,
            "+63 912 345 6789", "juan.delacruz@lakbay.com", "ABC 1234", "bg-blue-500"),
     Driver(2, "Maria Santos", "N01-12-876543", "Suarez to City Plaza", 49, 1580, 12,
            "+63 923 456 7890", "maria.santos@lakbay.com", "DEF 5678", "bg-pink-500"),
     Driver(3, "Pedro Reyes", "N01-12-234567", "Suarez to Gaisano", 47, 980, 6,
            "+63 934 567 8901", "pedro.reyes@lakbay.com", "GHI 9012", "bg-green-500"),
     Driver(4, "Rosa Gonzales", "N01-12-345679", "Suarez to Robinsons", 49, 1420, 10,
            "+63 945 678 9012", "rosa.gonzales@lakbay.com", "JKL 3456", "bg-purple-500")]
  }

  // ---------------------------------------------------------------------------
  // qrCode.trim()

  /** The characters `String.prototype.trim` removes: white space and line terminators.
      None of them is a digit or a letter of the tag. */
  predicate IsJsWhitespace(c: char)
    ensures IsJsWhitespace(c) ==> !IsDigit(c) && c !in Tag
  {
    c == ' ' || c == '\t' || c == '\n' || c == '\U{B}' || c == '\U{C}' || c == '\r' ||
    c == '\U{A0}' || c == '\U{1680}' || ('\U{2000}' <= c <= '\U{200A}') ||
    c == '\U{2028}' || c == '\U{2029}' || c == '\U{202F}' || c == '\U{205F}' ||
    c == '\U{3000}' || c == '\U{FEFF}'
  }

  /** `!code.trim()`: trimming leaves the empty string. A blank code never matches
      the pattern, so the blank test only chooses which error is shown. */
  predicate IsBlank(code: string)
    ensures IsBlank(code) ==> forall j :: !MatchesAt(code, j)
  {
    forall i :: 0 <= i < |code| ==> IsJsWhitespace(code[i])
  }

  // ---------------------------------------------------------------------------
  // code.match(/DRIVER-(\d+)/)

  predicate IsDigit(c: char) {
    '0' <= c <= '9'
  }

  predicate AllDigits(s: string) {
    forall i :: 0 <= i < |s| ==> IsDigit(s[i])
  }

  const Tag: string := "DRIVER-"

  /** The pattern matches at offset `i`: the tag, then at least one digit. */
  predicate MatchesAt(s: string, i: int) {
    0 <= i && i + 8 <= |s| && s[i..i + 7] == Tag && IsDigit(s[i + 7])
  }

  /** The leftmost offset at or after `from` where the pattern matches. */
  function FindFrom(s: string, from: nat): (r: Option<nat>)
    requires from <= |s|
    ensures r.None? ==> forall j :: from <= j ==> !MatchesAt(s, j)
    ensures r.Some? ==> from <= r.value && MatchesAt(s, r.value)
    ensures r.Some? ==> forall j :: from <= j < r.value ==> !MatchesAt(s, j)
    decreases |s| - from
  {
    if MatchesAt(s, from) then Some(from)
    else if from == |s| then None
    else FindFrom(s, from + 1)
  }

  /** The offset of the leftmost match, if any: the regular expression is not anchored. */
  function FirstMatch(s: string): (r: Option<nat>)
    ensures r.None? <==> forall j :: !MatchesAt(s, j)
    ensures r.Some? ==> MatchesAt(s, r.value) && forall j :: 0 <= j < r.value ==> !MatchesAt(s, j)
  {
    FindFrom(s, 0)
  }

  /** `\d+` is greedy: the longest run of digits at the front of `s`. */
  function DigitRun(s: string): (r: string)
    ensures IsPrefix(r, s) && AllDigits(r)
    ensures r == s || !IsDigit(s[|r|])
  {
    if s == [] || !IsDigit(s[0]) then [] else [s[0]] + DigitRun(s[1..])
  }

  /** The run stops exactly at the first character that is not a digit. */
  lemma {:induction false} DigitRunStops(a: string, b: string)
    requires AllDigits(a)
    requires b == [] || !IsDigit(b[0])
    ensures DigitRun(a + b) == a
  {
    if a == [] {
      assert a + b == b;
    } else {
      assert (a + b)[0] == a[0];
      assert (a + b)[1..] == a[1..] + b;
      DigitRunStops(a[1..], b);
    }
  }

  /** `match[1]`: the digits captured by the leftmost match. */
  function Captured(s: string): (m: Option<string>)
    ensures m.None? <==> forall j :: !MatchesAt(s, j)
    ensures m.Some? ==> |m.value| >= 1 && AllDigits(m.value)
  {
    match FirstMatch(s)
    case None => None
    case Some(i) => Some(DigitRun(s[i + 7..]))
  }

  // ---------------------------------------------------------------------------
  // parseInt and the template literal `DRIVER-${id}`

  function DigitValue(c: char): nat
    requires IsDigit(c)
  {
    c as int - '0' as int
  }

  function DigitChar(d: nat): (c: char)
    requires d < 10
    ensures IsDigit(c) && DigitValue(c) == d
  {
    ('0' as int + d) as char
  }

  /** `10` to the power `k`. */
  function Pow10(k: nat): (p: nat)
    ensures p >= 1
  {
    if k == 0 then 1 else 10 * Pow10(k - 1)
  }

  /** `parseInt` of a run of decimal digits, leading zeros allowed: a number below
      `10^|ds|`, and zero exactly when every digit is '0'. */
  function ParseDecimal(ds: string): (n: nat)
    requires AllDigits(ds)
    ensures n < Pow10(|ds|)
    ensures n == 0 <==> forall i :: 0 <= i < |ds| ==> ds[i] == '0'
  {
    if ds == [] then 0 else ParseDecimal(ds[..|ds| - 1]) * 10 + DigitValue(ds[|ds| - 1])
  }

  /** How a whole number is written: decimal digits, no leading zero. */
  function NatToDecimal(n: nat): (ds: string)
    ensures |ds| >= 1 && AllDigits(ds)
    ensures ds[0] == '0' ==> n == 0
  {
    if n < 10 then [DigitChar(n)] else NatToDecimal(n / 10) + [DigitChar(n % 10)]
  }

  /** Parsing undoes printing. */
  lemma {:induction false} ParsePrinted(n: nat)
    ensures ParseDecimal(NatToDecimal(n)) == n
  {
    if n >= 10 {
      var ds := NatToDecimal(n);
      assert ds[..|ds| - 1] == NatToDecimal(n / 10);
      ParsePrinted(n / 10);
    }
  }

  /** A leading zero does not change the parsed number. */
  lemma {:induction false} ParseLeadingZero(ds: string)
    requires AllDigits(ds)
    ensures ParseDecimal("0" + ds) == ParseDecimal(ds)
  {
    var z := "0" + ds;
    if ds == [] {
      assert z[..0] == [];
    } else {
      assert z[..|z| - 1] == "0" + ds[..|ds| - 1];
      assert z[|z| - 1] == ds[|ds| - 1];
      ParseLeadingZero(ds[..|ds| - 1]);
    }
  }

  // ---------------------------------------------------------------------------
  // drivers.find(d => d.id === driverId)

  /** The first driver with the given id, if any. */
  function FindDriver(ds: seq<Driver>, id: nat): (r: Option<Driver>)
    ensures r.None? <==> forall k :: 0 <= k < |ds| ==> ds[k].id != id
    ensures r.Some? ==> exists k :: 0 <= k < |ds| && ds[k] == r.value && r.value.id == id &&
                                    forall j :: 0 <= j < k ==> ds[j].id != id
  {
    if ds == [] then None
    else if ds[0].id == id then Some(ds[0])
    else
      var r := FindDriver(ds[1..], id);
      assert r.Some? ==> exists k :: 1 <= k < |ds| && ds[k] == r.value && r.value.id == id &&
                                     forall j :: 0 <= j < k ==> ds[j].id != id by {
        if r.Some? {
          var k :| 0 <= k < |ds| - 1 && ds[1..][k] == r.value && r.value.id == id &&
                   forall j :: 0 <= j < k ==> ds[1..][j].id != id;
          assert ds[k + 1] == r.value;
          forall j | 0 <= j < k + 1 ensures ds[j].id != id {
            if j > 0 { assert ds[j] == ds[1..][j - 1]; }
          }
        }
      }
      r
  }

  /** In the scanner's table the k-th row has id k + 1, so every id 1 to 4 finds its row. */
  lemma FindInTable(id: nat)
    ensures 1 <= id <= 4 ==> FindDriver(QrDrivers(), id) == Some(QrDrivers()[id - 1])
    ensures !(1 <= id <= 4) ==> FindDriver(QrDrivers(), id) == None
  {
    var ds := QrDrivers();
    if 1 <= id <= 4 {
      var r := FindDriver(ds, id);
      var k :| 0 <= k < |ds| && ds[k] == r.value && r.value.id == id &&
               forall j :: 0 <= j < k ==> ds[j].id != id;
      assert k == id - 1;
    }
  }

  // ---------------------------------------------------------------------------
  // handleScan

  /** What one press of Scan finds. */
  datatype ScanResult = EmptyCode | BadFormat | NotFound | Found(driver: Driver)

  function ScanOutcome(code: string): (res: ScanResult)
    ensures res == EmptyCode <==> IsBlank(code)
    ensures res == BadFormat <==> !IsBlank(code) && forall j :: !MatchesAt(code, j)
    ensures res == NotFound <==>
      !IsBlank(code) && Captured(code).Some? &&
      FindDriver(QrDrivers(), ParseDecimal(Captured(code).value)).None?
    ensures res.Found? ==>
      !IsBlank(code) && Captured(code).Some? && res.driver in QrDrivers() &&
      res.driver.id == ParseDecimal(Captured(code).value)
  {
    if IsBlank(code) then EmptyCode
    else match Captured(code)
      case None => BadFormat
      case Some(ds) =>
        match FindDriver(QrDrivers(), ParseDecimal(ds))
        case None => NotFound
        case Some(d) => Found(d)
  }

  /** The message shown under the input; empty when a driver was found. */
  function ErrorText(res: ScanResult): (msg: string)
    ensures msg == "" <==> res.Found?
  {
    match res
    case EmptyCode => "Please enter a QR code"
    case BadFormat => "Invalid QR code format"
    case NotFound => "Driver not found"
    case Found(_) => ""
  }

  /** The tag, a run of digits, then text that does not start with a digit (or
      nothing): the run is what the pattern captures. */
  lemma {:induction false} TaggedDigitsCaptured(ds: string, rest: string)
    requires |ds| >= 1 && AllDigits(ds)
    requires rest == [] || !IsDigit(rest[0])
    ensures var code := Tag + ds + rest;
      !IsBlank(code) && Captured(code) == Some(ds)
  {
    var code := Tag + ds + rest;
    assert code[0] == 'D';
    assert code[0..7] == Tag;
    assert code[7] == ds[0];
    assert MatchesAt(code, 0);
    assert code[7..] == ds + rest;
    DigitRunStops(ds, rest);
  }

  /** Two non-blank codes whose captured numbers parse the same scan the same. */
  lemma SameNumberSameOutcome(c1: string, c2: string)
    requires !IsBlank(c1) && !IsBlank(c2)
    requires Captured(c1).Some? && Captured(c2).Some?
    requires ParseDecimal(Captured(c1).value) == ParseDecimal(Captured(c2).value)
    ensures ScanOutcome(c1) == ScanOutcome(c2)
  {
  }

  /** The code for id `n` followed by text that does not start with a digit (or by
      nothing) is read as `n`. */
  lemma TaggedCodeReadsId(n: nat, rest: string)
    requires rest == [] || !IsDigit(rest[0])
    ensures var code := Tag + NatToDecimal(n) + rest;
      !IsBlank(code) && Captured(code) == Some(NatToDecimal(n))
  {
    TaggedDigitsCaptured(NatToDecimal(n), rest);
  }

  /** Scanning the code printed for id `n` finds the driver with that id, or reports
      that there is none: printing and scanning are inverse. */
  lemma ScanPrintedCode(n: nat)
    ensures 1 <= n <= 4 ==> ScanOutcome(Tag + NatToDecimal(n)) == Found(QrDrivers()[n - 1])
    ensures !(1 <= n <= 4) ==> ScanOutcome(Tag + NatToDecimal(n)) == NotFound
  {
    TaggedCodeReadsId(n, []);
    assert Tag + NatToDecimal(n) + [] == Tag + NatToDecimal(n);
    ParsePrinted(n);
    FindInTable(n);
  }

  /** Every demo button's code scans to that button's driver. */
  lemma DemoCodesScanToTheirDriver(k: nat)
    requires k < |QrDrivers()|
    ensures ScanOutcome(Tag + NatToDecimal(QrDrivers()[k].id)) == Found(QrDrivers()[k])
  {
    var d := QrDrivers()[k];
    assert d.id == k + 1;
    ScanPrintedCode(k + 1);
  }

  /** Text after the number is ignored once it starts with a non-digit. */
  lemma TrailingTextIgnored(n: nat, rest: string)
    requires rest == [] || !IsDigit(rest[0])
    ensures ScanOutcome(Tag + NatToDecimal(n) + rest) == ScanOutcome(Tag + NatToDecimal(n))
  {
    TaggedCodeReadsId(n, rest);
    TaggedCodeReadsId(n, []);
    assert Tag + NatToDecimal(n) + [] == Tag + NatToDecimal(n);
    SameNumberSameOutcome(Tag + NatToDecimal(n) + rest, Tag + NatToDecimal(n));
  }

  /** Extra leading zeros are accepted: "DRIVER-01" scans like "DRIVER-1". */
  lemma LeadingZeroAccepted(n: nat)
    ensures ScanOutcome(Tag + ("0" + NatToDecimal(n))) == ScanOutcome(Tag + NatToDecimal(n))
  {
    var ds := NatToDecimal(n);
    TaggedDigitsCaptured("0" + ds, []);
    TaggedDigitsCaptured(ds, []);
    assert Tag + ("0" + ds) + [] == Tag + ("0" + ds);
    assert Tag + ds + [] == Tag + ds;
    ParseLeadingZero(ds);
    SameNumberSameOutcome(Tag + ("0" + ds), Tag + ds);
  }

  /** The tag is case-sensitive, and a code of blanks is reported as empty. */
  lemma ScanExamples()
    ensures ScanOutcome("driver-1") == BadFormat
    ensures ScanOutcome(" \t") == EmptyCode
  {
    var s := "driver-1";
    assert s[0..7] != Tag by {
      assert s[0..7][0] == 'd' && Tag[0] == 'D';
    }
    assert forall j :: !MatchesAt(s, j);
    assert s[0] == 'd' && !IsJsWhitespace(s[0]);
    assert !IsBlank(s);
  }

  /** The scanner's three state cells. */
  class Scanner {
    var qrCode: string
    var scannedDriver: Option<Driver>
    var error: string

    constructor ()
      ensures qrCode == "" && scannedDriver == None && error == ""
    {
      qrCode := "";
      scannedDriver := None;
      error := "";
    }

    /** The input card is shown only while no driver is displayed. */
    predicate InputCardShown()
      reads this
    {
      scannedDriver.None?
    }

    /** Typing into the input. */
    method SetQrCode(text: string)
      modifies this
      ensures qrCode == text
      ensures scannedDriver == old(scannedDriver) && error == old(error)
    {
      qrCode := text;
    }

    /** `handleScan`: the first two errors leave the shown driver alone; a code whose
        number matches no driver clears it. */
    method HandleScan()
      modifies this
      ensures qrCode == old(qrCode)
      ensures error == ErrorText(ScanOutcome(qrCode))
      ensures match ScanOutcome(qrCode)
              case Found(d) => scannedDriver == Some(d)
              case NotFound => scannedDriver == None
              case _ => scannedDriver == old(scannedDriver)
      ensures error == "" <==> ScanOutcome(qrCode).Found?
      ensures old(scannedDriver).None? ==> (error == "" <==> scannedDriver.Some?)
    {
      var res := ScanOutcome(qrCode);
      error := "";
      match res {
        case EmptyCode =>
          error := "Please enter a QR code";
        case BadFormat =>
          error := "Invalid QR code format";
        case NotFound =>
          error := "Driver not found";
          scannedDriver := None;
        case Found(d) =>
          scannedDriver := Some(d);
          error := "";
      }
      assert error == ErrorText(res);
    }

    /** `handleReset`, from the card's close button or "Scan Another". */
    method HandleReset()
      modifies this
      ensures qrCode == "" && scannedDriver == None && error == ""
      ensures InputCardShown()
    {
      qrCode := "";
      scannedDriver := None;
      error := "";
    }

    /** A demo button writes its driver's code into the input and clears the error. */
    method PressDemo(k: nat)
      requires k < |QrDrivers()|
      modifies this
      ensures qrCode == Tag + NatToDecimal(QrDrivers()[k].id)
      ensures error == "" && scannedDriver == old(scannedDriver)
    {
      qrCode := Tag + NatToDecimal(QrDrivers()[k].id);
      error := "";
    }
  }

  /** Pressing a demo button and then Scan shows that button's driver with no error. */
  method DemoScan(k: nat) returns (s: Scanner)
    requires k < |QrDrivers()|
    ensures s.scannedDriver == Some(QrDrivers()[k]) && s.error == ""
    ensures !s.InputCardShown()
  {
    s := new Scanner();
    s.PressDemo(k);
    DemoCodesScanToTheirDriver(k);
    s.HandleScan();
  }
}
