/** The public driver directory: the driver record, the avatar initials, the
    header statistics, the five-star rating display, and the profile dialog. */
module DriversPage {
  import opened Common

  /** A driver record. The rating is kept in tenths (4.8 is 48), the only
      precision the tables use. */
  datatype Driver = Driver(
    id: nat,
    name: string,
    licenseNumber: string,
    assignedRoute: string,
    ratingTenths: nat,
    totalTrips: nat,
    yearsOfService: nat,
    phone: string,
    email: string,
    vehiclePlateNumber: string,
    avatarColor: string)

  /** The directory's table: six drivers, ids 1 to 6 in order, every rating at most
      five stars. */
  function Drivers(): (ds: seq<Driver>)
    ensures |ds| == 6
    ensures forall k :: 0 <= k < |ds| ==> ds[k].id == k + 1 && ds[k].ratingTenths <= 50
  {
    [Driver(1, "Juan Dela Cruz", "N01-12-345678", "Suarez Route 1", 48, 1250, 8,
            "+63 912 345 6789", "juan.delacruz@lakbay.com", "ABC 1234", "bg-blue-500"),
     Driver(2, "Maria Santos", "N01-12-876543", "Suarez Route 2", 49, 1580, 12,
            "+63 923 456 7890", "maria.santos@lakbay.com", "DEF 5678", "bg-pink-500"),
     Driver(3, "Pedro Reyes", "N01-12-234567", "Suarez Route 3", 47, 980, 6,
            "+63 934 567 8901", "pedro.reyes@lakbay.com", "GHI 9012", "bg-green-500"),
     Driver(4, "Rosa Gonzales", "N01-12-345679", "Suarez Route 4", 49, 1420, 10,
            "+63 945 678 9012", "rosa.gonzales@lakbay.com", "JKL 3456", "bg-purple-500"),
     Driver(5, "Roberto Cruz", "N01-12-456780", "Suarez Route 5", 46, 870, 5,
            "+63 956 789 0123", "roberto.cruz@lakbay.com", "MNO 7890", "bg-yellow-600"),
     Driver(6, "Elena Ramos", "N01-12-567891", "Suarez Route 6", 48, 1150, 7,
            "+63 967 890 1234", "elena.ramos@lakbay.com", "PQR 1234", "bg-red-500")]
  }

  // ---------------------------------------------------------------------------
  // Initials: name.split(' ').map(n => n[0]).join('')

  /** `pieces.join(sep)` for a one-character separator. */
  function Join(pieces: seq<string>, sep: char): string {
    if pieces == [] then ""
    else if |pieces| == 1 then pieces[0]
    else pieces[0] + [sep] + Join(pieces[1..], sep)
  }

  /** `s.split(' ')`: one piece per run between spaces, empty pieces included, so
      joining the pieces with single spaces gives the text back. */
  function SplitOnSpace(s: string): (pieces: seq<string>)
    ensures |pieces| >= 1
    ensures forall p :: p in pieces ==> ' ' !in p
    ensures Join(pieces, ' ') == s
  {
    if s == [] then [""]
    else
      var rest := SplitOnSpace(s[1..]);
      assert s == [s[0]] + s[1..];
      if s[0] == ' ' then
        assert ([""] + rest)[1..] == rest;
        [""] + rest
      else
        var pieces := [[s[0]] + rest[0]] + rest[1..];
        assert pieces[1..] == rest[1..];
        pieces
  }

  /** `n[0]` joined: an empty piece gives `undefined`, which `join` prints as "". */
  function FirstChars(pieces: seq<string>): string {
    if pieces == [] then ""
    else (if pieces[0] == "" then "" else [pieces[0][0]]) + FirstChars(pieces[1..])
  }

  /** The avatar text: the first letter of every space-separated word. */
  function Initials(name: string): (r: string)
    ensures r == WordStarts(name, true)
  {
    InitialsAreWordStarts(name);
    FirstChars(SplitOnSpace(name))
  }

  /** Reference reading of the initials: every non-space character that starts the
      text or follows a space, in order. `atStart` says whether the previous
      character was a space (or there was none). */
  function WordStarts(s: string, atStart: bool): (r: string)
    ensures |r| <= |s|
    ensures ' ' !in r
  {
    if s == [] then ""
    else (if atStart && s[0] != ' ' then [s[0]] else "") + WordStarts(s[1..], s[0] == ' ')
  }

  lemma WordStartsHead(t: string)
    ensures WordStarts(t, true) ==
      (if SplitOnSpace(t)[0] == "" then "" else [SplitOnSpace(t)[0][0]]) + WordStarts(t, false)
  {
  }

  lemma {:induction false} WordStartsTail(s: string)
    ensures FirstChars(SplitOnSpace(s)[1..]) == WordStarts(s, false)
  {
    if s != [] {
      var rest := SplitOnSpace(s[1..]);
      WordStartsTail(s[1..]);
      if s[0] == ' ' {
        assert SplitOnSpace(s)[1..] == rest;
        assert rest == [rest[0]] + rest[1..];
        WordStartsHead(s[1..]);
      } else {
        assert SplitOnSpace(s)[1..] == rest[1..];
      }
    }
  }

  /** The initials are exactly the first letters of the space-separated words;
      repeated, leading or trailing spaces add nothing. */
  lemma {:induction false} InitialsAreWordStarts(name: string)
    ensures FirstChars(SplitOnSpace(name)) == WordStarts(name, true)
  {
    var pieces := SplitOnSpace(name);
    assert pieces == [pieces[0]] + pieces[1..];
    WordStartsTail(name);
    WordStartsHead(name);
  }

  // ---------------------------------------------------------------------------
  // Header statistics

  /** `drivers.reduce((sum, d) => sum + d.totalTrips, 0)`. */
  function TripTotal(ds: seq<Driver>): (t: nat)
    ensures forall i :: 0 <= i < |ds| ==> ds[i].totalTrips <= t
  {
    if ds == [] then 0 else ds[0].totalTrips + TripTotal(ds[1..])
  }

  /** `drivers.reduce((sum, d) => sum + d.yearsOfService, 0)`. */
  function YearsTotal(ds: seq<Driver>): (t: nat)
    ensures forall i :: 0 <= i < |ds| ==> ds[i].yearsOfService <= t
  {
    if ds == [] then 0 else ds[0].yearsOfService + YearsTotal(ds[1..])
  }

  /** The totals add up over any split of the list. */
  lemma {:induction false} TotalsAdditive(a: seq<Driver>, b: seq<Driver>)
    ensures TripTotal(a + b) == TripTotal(a) + TripTotal(b)
    ensures YearsTotal(a + b) == YearsTotal(a) + YearsTotal(b)
  {
    if a == [] {
      assert a + b == b;
    } else {
      assert (a + b)[0] == a[0];
      assert (a + b)[1..] == a[1..] + b;
      TotalsAdditive(a[1..], b);
    }
  }

  /** `Math.round(x)`: the nearest integer, halves rounded up. */
  function RoundHalfUp(x: real): (n: int)
    ensures n as real - 0.5 <= x < n as real + 0.5
  {
    (x + 0.5).Floor
  }

  /** The "Avg Experience" figure; `None` stands for the `NaN` an empty list gives.
      Otherwise it is the mean number of years rounded half up, which for whole
      totals is an integer division. */
  function AverageYears(ds: seq<Driver>): (avg: Option<int>)
    ensures avg.None? <==> ds == []
    ensures ds != [] ==> avg == Some((2 * YearsTotal(ds) + |ds|) / (2 * |ds|))
  {
    if ds == [] then None
    else
      RoundedAverageFormula(YearsTotal(ds), |ds|);
      Some(RoundHalfUp(YearsTotal(ds) as real / |ds| as real))
  }

  /** For natural totals the rounded average is an integer division. */
  lemma RoundedAverageFormula(sum: nat, len: nat)
    requires len > 0
    ensures RoundHalfUp(sum as real / len as real) == (2 * sum + len) / (2 * len)
  {
    var q := (2 * sum + len) / (2 * len);
    var y := sum as real / len as real + 0.5;
    HalfShiftedAverage(sum, len);
    assert q * (2 * len) <= 2 * sum + len < (q + 1) * (2 * len);
    BetweenMultiples(q, y, 2 * len, 2 * sum + len);
  }

  /** The shifted average times twice the length is an integer. */
  lemma HalfShiftedAverage(sum: nat, len: nat)
    requires len > 0
    ensures (sum as real / len as real + 0.5) * (2 * len) as real == (2 * sum + len) as real
  {
    var S, L := sum as real, len as real;
    assert (S / L) * L == S;
  }

  /** A real whose multiple lies between two consecutive multiples of `q` and `q + 1`
      has floor `q`. */
  lemma BetweenMultiples(q: int, y: real, m: nat, n: int)
    requires m > 0 && y * m as real == n as real
    requires q * m <= n < (q + 1) * m
    ensures y.Floor == q
  {
    assert (q * m) as real == q as real * m as real;
    assert ((q + 1) * m) as real == (q + 1) as real * m as real;
    MulCancel(q as real, y, m as real);
    MulCancelStrict(y, (q + 1) as real, m as real);
  }

  lemma MulCancel(a: real, b: real, c: real)
    requires c > 0.0 && a * c <= b * c
    ensures a <= b
  {
  }

  lemma MulCancelStrict(a: real, b: real, c: real)
    requires c > 0.0 && a * c < b * c
    ensures a < b
  {
  }

  /** The header of the directory as it is shown. */
  lemma HeaderStatistics()
    ensures |Drivers()| == 6
    ensures TripTotal(Drivers()) == 7250
    ensures AverageYears(Drivers()) == Some(8)
  {
    RoundedAverageFormula(48, 6);
  }

  // ---------------------------------------------------------------------------
  // renderStars

  datatype StarFill = Full | Partial | Blank

  /** The fill of star `star` (1 to 5) for a rating of `tenths`/10:
      full when `star <= Math.floor(rating)`, partial when `star - rating < 1`. */
  function StarFillAt(star: int, tenths: nat): (f: StarFill)
    ensures f == Full <==> star * 10 <= tenths
    ensures f == Partial <==> tenths < star * 10 < tenths + 10
  {
    if star <= tenths / 10 then Full
    else if star * 10 - tenths < 10 then Partial
    else Blank
  }

  /** The five stars, left to right. */
  function StarRow(tenths: nat): (row: seq<StarFill>)
    ensures |row| == 5
  {
    [StarFillAt(1, tenths), StarFillAt(2, tenths), StarFillAt(3, tenths),
     StarFillAt(4, tenths), StarFillAt(5, tenths)]
  }

  /** For a rating between 0 and 5 the row shows `floor(rating)` full stars, then one
      partial star exactly when the rating is not whole, then blank stars. */
  lemma StarFillRule(star: int, tenths: nat)
    requires 1 <= star <= 5 && tenths <= 50
    ensures StarFillAt(star, tenths) == Full <==> star <= tenths / 10
    ensures StarFillAt(star, tenths) == Partial <==> star == tenths / 10 + 1 && tenths % 10 != 0
  {
    var k, r := tenths / 10, tenths % 10;
    assert tenths == 10 * k + r && 0 <= r < 10;
  }

  /** For a rating between 0 and 5 the row shows `floor(rating)` full stars, then one
      partial star exactly when the rating is not whole, then blank stars. */
  lemma StarRowShape(tenths: nat)
    requires tenths <= 50
    ensures var row := StarRow(tenths);
      && (forall i :: 0 <= i < 5 ==> (row[i] == Full <==> i < tenths / 10))
      && (forall i :: 0 <= i < 5 ==> (row[i] == Partial <==> i == tenths / 10 && tenths % 10 != 0))
      && Count(row, (f: StarFill) => f == Full) == tenths / 10
      && Count(row, (f: StarFill) => f == Partial) == (if tenths % 10 != 0 then 1 else 0)
  {
    var row := StarRow(tenths);
    forall i | 0 <= i < 5
      ensures (row[i] == Full <==> i < tenths / 10)
      ensures (row[i] == Partial <==> i == tenths / 10 && tenths % 10 != 0)
    {
      StarFillRule(i + 1, tenths);
    }
    CountFive(row, (f: StarFill) => f == Full);
    CountFive(row, (f: StarFill) => f == Partial);
  }

  // ---------------------------------------------------------------------------
  // Profile dialog

  /** `selectedDriver`: the dialog is open on one driver or closed. */
  datatype Dialog = Closed | Open(driver: Driver)

  /** Clicking a card or its "View Full Profile" button opens that driver's profile. */
  function SelectDriver(d: Driver): (dialog: Dialog)
    ensures dialog.Open? && dialog.driver == d
  {
    Open(d)
  }

  /** The backdrop and the close button both close the dialog. */
  function CloseDialog(dialog: Dialog): (closed: Dialog)
    ensures closed == Closed
  {
    Closed
  }
}
