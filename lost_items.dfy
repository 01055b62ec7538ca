/**
 * The LostItem records the pages read and write, the payloads they send to
 * the data client, the storage upload keys, and the data and storage clients
 * as a log of the calls made to them.
 */
module LostItems {
  import opened JsSemantics

  /** A LostItem record as the data store returns it; every attribute but `id` may be null. */
  datatype StoredItem = StoredItem(
    id: string,
    name: Option<string>,
    description: Option<string>,
    category: Option<string>,
    location: Option<string>,
    date: Option<string>,
    imagepath: Option<string>,
    isClaimed: Option<bool>,
    claimedby: Option<string>,
    claimeddate: Option<string>)

  /** `item.isClaimed` as a condition: null counts as false. */
  predicate IsClaimed(item: StoredItem) {
    item.isClaimed == Some(true)
  }

  /** The create input of the report page. */
  datatype CreateInput = CreateInput(
    name: Option<string>, description: Option<string>, category: Option<string>, location: Option<string>,
    date: string, imagepath: string, isClaimed: bool)

  /** The update input of the edit dialog; `None` in a claim field is an explicit null. */
  datatype UpdateInput = UpdateInput(
    id: string, name: string, description: string, category: string, location: string,
    date: string, imagepath: string, isClaimed: bool, claimedby: Option<string>, claimeddate: Option<string>)

  /** The update input of the catalogue's Claim button; an undefined `claimedby` is left out of the request. */
  datatype ClaimInput = ClaimInput(id: string, isClaimed: bool, claimedby: Option<string>, claimeddate: string)

  /** The record a create stores, under the id the store generates. */
  function Created(id: string, c: CreateInput): StoredItem {
    StoredItem(id, c.name, c.description, c.category, c.location, Some(c.date), Some(c.imagepath),
               Some(c.isClaimed), None, None)
  }

  /** An update replaces every attribute it names; a null clears the attribute. */
  function Updated(s: StoredItem, u: UpdateInput): StoredItem
    requires s.id == u.id
  {
    StoredItem(s.id, Some(u.name), Some(u.description), Some(u.category), Some(u.location), Some(u.date),
               Some(u.imagepath), Some(u.isClaimed), u.claimedby, u.claimeddate)
  }

  /** A claim replaces the claim state; an omitted `claimedby` keeps the stored one. */
  function Claimed(s: StoredItem, c: ClaimInput): StoredItem
    requires s.id == c.id
  {
    s.(isClaimed := Some(c.isClaimed), claimeddate := Some(c.claimeddate),
       claimedby := if c.claimedby.Some? then c.claimedby else s.claimedby)
  }

  // ---------------------------------------------------------------------
  // Dates: a date-picker value stands for the `YYYY-MM-DD` text it formats to

  predicate IsDigit(c: char) {
    '0' <= c <= '9'
  }

  /** Text of the shape `DDDD-DD-DD`, with digits for `D`. */
  predicate IsDateShaped(s: string) {
    |s| == 10 && s[4] == '-' && s[7] == '-' &&
    forall k :: 0 <= k < 10 && k != 4 && k != 7 ==> IsDigit(s[k])
  }

  function DigitValue(c: char): int {
    c as int - '0' as int
  }

  function YearOf(s: string): int
    requires IsDateShaped(s)
  {
    1000 * DigitValue(s[0]) + 100 * DigitValue(s[1]) + 10 * DigitValue(s[2]) + DigitValue(s[3])
  }

  function MonthOf(s: string): int
    requires IsDateShaped(s)
  {
    10 * DigitValue(s[5]) + DigitValue(s[6])
  }

  function DayOf(s: string): int
    requires IsDateShaped(s)
  {
    10 * DigitValue(s[8]) + DigitValue(s[9])
  }

  /** The Gregorian leap-year rule. */
  predicate IsLeapYear(y: int) {
    (y % 4 == 0 && y % 100 != 0) || y % 400 == 0
  }

  function DaysInMonth(y: int, m: int): int
    requires 1 <= m <= 12
  {
    if m == 2 then (if IsLeapYear(y) then 29 else 28)
    else if m == 4 || m == 6 || m == 9 || m == 11 then 30
    else 31
  }

  /**
   * A `YYYY-MM-DD` calendar date: a real month and a day within it. Years
   * before 100 are excluded because JavaScript's `Date` maps them to 19xx.
   */
  predicate IsIsoDate(s: string) {
    IsDateShaped(s) && YearOf(s) >= 100 &&
    1 <= MonthOf(s) <= 12 && 1 <= DayOf(s) <= DaysInMonth(YearOf(s), MonthOf(s))
  }

  /** What `format("YYYY-MM-DD")` gives for a date it could not parse. */
  const InvalidDate := "Invalid Date"

  /** The text a date-picker value formats to. */
  type FormattedDate = s: string | IsIsoDate(s) || s == InvalidDate witness "Invalid Date"

  /** `dayjs(s).format("YYYY-MM-DD")`: a calendar date formats to itself, anything else is invalid. */
  function DayjsFormat(s: string): (f: FormattedDate)
    ensures IsIsoDate(s) ==> f == s
    ensures !IsIsoDate(s) ==> f == InvalidDate
  {
    if IsIsoDate(s) then s else InvalidDate
  }

  /** Only calendar dates count: leap days exist in leap years only, and months end on their last day. */
  lemma CalendarDates()
    ensures IsIsoDate("2024-02-29") && !IsIsoDate("2023-02-29")
    ensures !IsIsoDate("2024-02-30") && !IsIsoDate("2024-13-01") && !IsIsoDate("2024-04-31")
    ensures IsIsoDate("2000-02-29") && !IsIsoDate("1900-02-29")
  {
    assert IsDateShaped("2024-02-29") && IsDateShaped("2000-02-29");
  }

  /** A formatted date is never empty, so an absent date is the only source of ''. */
  lemma FormattedDateNonEmpty(f: FormattedDate)
    ensures f != ""
  {
  }

  // ---------------------------------------------------------------------
  // Upload keys: `${folder}${Date.now()}_${file.name}`

  const Bucket := "appdevlostnfoundbucket"
  const ReportFolder := "uploads/"
  const UpdateFolder := "lost-items/"

  function DigitChar(d: nat): char
    requires d < 10
  {
    ('0' as int + d) as char
  }

  /** The decimal numeral of a timestamp. */
  function Decimal(n: nat): (s: string)
    ensures |s| >= 1
    ensures forall k :: 0 <= k < |s| ==> '0' <= s[k] <= '9'
  {
    if n < 10 then [DigitChar(n)] else Decimal(n / 10) + [DigitChar(n % 10)]
  }

  /** Reads a numeral back. */
  function ParseDecimal(s: string): nat
    requires forall k :: 0 <= k < |s| ==> '0' <= s[k] <= '9'
  {
    if s == [] then 0 else 10 * ParseDecimal(s[..|s| - 1]) + (s[|s| - 1] as int - '0' as int)
  }

  lemma {:induction false} DecimalRoundTrip(n: nat)
    ensures ParseDecimal(Decimal(n)) == n
    decreases n
  {
    if n >= 10 {
      var s, q, r := Decimal(n), n / 10, n % 10;
      DecimalRoundTrip(q);
      assert s == Decimal(q) + [DigitChar(r)];
      assert s[..|s| - 1] == Decimal(q) && s[|s| - 1] == DigitChar(r);
      assert n == 10 * q + r;
    }
  }

  /** The storage key of an upload. */
  function FileKey(folder: string, stamp: nat, fileName: string): string {
    folder + Decimal(stamp) + "_" + fileName
  }

  /** The position of the first `c` in `s`. */
  function FirstIndexOf(s: string, c: char): (r: Option<nat>)
    ensures r.Some? ==> r.value < |s| && s[r.value] == c
    ensures r.Some? ==> forall j :: 0 <= j < r.value ==> s[j] != c
    ensures r.None? ==> forall j :: 0 <= j < |s| ==> s[j] != c
    decreases |s|
  {
    if s == [] then None
    else if s[0] == c then Some(0)
    else match FirstIndexOf(s[1..], c)
      case Some(j) => Some(j + 1)
      case None => None
  }

  /**
   * A key names its folder, timestamp and file: the numeral holds no `_`, so
   * the first `_` after the folder ends it.
   */
  lemma FileKeyFields(folder: string, stamp: nat, fileName: string)
    ensures var key := FileKey(folder, stamp, fileName); var rest := key[|folder|..];
      |folder| <= |key| && key[..|folder|] == folder &&
      FirstIndexOf(rest, '_') == Some(|Decimal(stamp)|) &&
      rest[..|Decimal(stamp)|] == Decimal(stamp) && rest[|Decimal(stamp)| + 1..] == fileName
  {
    var d := Decimal(stamp);
    var rest := FileKey(folder, stamp, fileName)[|folder|..];
    assert rest == d + "_" + fileName;
    assert '_' !in d;
    assert rest[..|d|] == d;
    assert forall j :: 0 <= j < |d| ==> rest[j] == d[j] && rest[j] != '_';
    assert rest[|d|] == '_';
  }

  /** Two uploads share a key only if they share timestamp and file name. */
  lemma FileKeyInjective(folder: string, stamp1: nat, name1: string, stamp2: nat, name2: string)
    requires FileKey(folder, stamp1, name1) == FileKey(folder, stamp2, name2)
    ensures stamp1 == stamp2 && name1 == name2
  {
    FileKeyFields(folder, stamp1, name1);
    FileKeyFields(folder, stamp2, name2);
    DecimalRoundTrip(stamp1);
    DecimalRoundTrip(stamp2);
  }

  // ---------------------------------------------------------------------
  // The data and storage clients

  /** A file chosen in a file input. */
  datatype FileRef = FileRef(name: string)

  datatype Upload = Upload(path: string, file: FileRef, bucket: string)

  datatype Mutation = Create(create: CreateInput) | Update(update: UpdateInput) | Claim(claim: ClaimInput)

  /** The storage and data clients: every upload and every model mutation sent, in order. */
  class Backend {
    var uploads: seq<Upload>
    var mutations: seq<Mutation>

    constructor ()
      ensures uploads == [] && mutations == []
    {
      uploads := [];
      mutations := [];
    }

    /** `uploadData(...).result`; it rejects when `fails`. */
    method UploadData(path: string, file: FileRef, bucket: string, fails: bool) returns (ok: bool)
      modifies `uploads
      ensures uploads == old(uploads) + [Upload(path, file, bucket)]
      ensures ok == !fails
    {
      uploads := uploads + [Upload(path, file, bucket)];
      ok := !fails;
    }

    /** A `client.models.LostItem` mutation; it rejects when `fails`. */
    method Mutate(m: Mutation, fails: bool) returns (ok: bool)
      modifies `mutations
      ensures mutations == old(mutations) + [m]
      ensures ok == !fails
    {
      mutations := mutations + [m];
      ok := !fails;
    }
  }
}
