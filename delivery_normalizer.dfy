/**
 * The delivery serializer: reading a delivery's pickup and dropoff tasks
 * from request data (a time slot or a deadline, an address given as an
 * IRI, as free text to geocode, or as an object), and writing a delivery
 * out with each task reduced to its id, address and deadline.
 *
 * The inner item normalizer, the geocoder, the IRI converter and PHP's
 * date parser are collaborators whose results are given as functions.
 */
module Delivery {
  import opened Values

  // ---------------------------------------------------------------------
  // Digits and numbers
  // ---------------------------------------------------------------------

  predicate IsDigit(c: char)
  {
    '0' as int <= c as int <= '9' as int
  }

  /** A non-empty run of decimal digits. */
  predicate IsDigits(s: string)
  {
    |s| > 0 && forall i :: 0 <= i < |s| ==> IsDigit(s[i])
  }

  /** The value of a digit string, as PHP's conversion of a numeric string to int ("09" is 9). */
  function DigitsValue(s: string): nat
    requires forall i :: 0 <= i < |s| ==> IsDigit(s[i])
  {
    if s == [] then 0
    else
      assert IsDigit(s[|s| - 1]);
      DigitsValue(s[..|s| - 1]) * 10 + (s[|s| - 1] as int - '0' as int)
  }

  function DigitChar(d: nat): (c: char)
    requires d < 10
    ensures IsDigit(c) && c as int - '0' as int == d
  {
    ('0' as int + d) as char
  }

  /** Decimal notation without leading zeros. */
  function NatToString(n: nat): (s: string)
    ensures IsDigits(s)
    decreases n
  {
    if n < 10 then [DigitChar(n)] else NatToString(n / 10) + [DigitChar(n % 10)]
  }

  /** Decimal notation on at least two digits, as the `H`, `i` and `s` date formats print. */
  function Pad2(n: nat): (s: string)
    ensures IsDigits(s)
  {
    if n < 10 then ['0', DigitChar(n)] else NatToString(n)
  }

  lemma {:induction false} NatToStringValue(n: nat)
    ensures DigitsValue(NatToString(n)) == n
    decreases n
  {
    if n >= 10 {
      NatToStringValue(n / 10);
      var s := NatToString(n);
      assert s[..|s| - 1] == NatToString(n / 10);
    }
  }

  /** Two-digit printing is read back as the same number, and has two characters below 100. */
  lemma Pad2Value(n: nat)
    ensures DigitsValue(Pad2(n)) == n
    ensures n < 100 ==> |Pad2(n)| == 2
  {
    if n < 10 {
      var s := Pad2(n);
      assert s[..1] == ['0'];
      assert DigitsValue(['0']) == 0 by {
        assert ['0'][..0] == [];
      }
    } else {
      NatToStringValue(n);
      if n < 100 {
        assert NatToString(n / 10) == [DigitChar(n / 10)];
      }
    }
  }

  /** Reading two digits and printing them back gives the same two digits. */
  lemma Pad2OfDigits(s: string)
    requires |s| == 2 && IsDigits(s)
    ensures DigitsValue(s) < 100 && Pad2(DigitsValue(s)) == s
  {
    assert s[..1][..0] == [];
    assert DigitsValue(s[..1]) == s[0] as int - '0' as int;
    assert s[..|s| - 1] == s[..1];
    var n := DigitsValue(s);
    assert n == (s[0] as int - '0' as int) * 10 + (s[1] as int - '0' as int);
    if n >= 10 {
      assert NatToString(n / 10) == [DigitChar(n / 10)];
    }
  }

  // ---------------------------------------------------------------------
  // explode
  // ---------------------------------------------------------------------

  /** PHP's `explode(sep, s)`: the pieces between separators, at least one. */
  function Split(s: string, sep: char): (parts: seq<string>)
    ensures |parts| >= 1
    ensures forall i :: 0 <= i < |parts| ==> sep !in parts[i]
  {
    if s == [] then [""]
    else
      var rest := Split(s[1..], sep);
      if s[0] == sep then [""] + rest else [[s[0]] + rest[0]] + rest[1..]
  }

  /** PHP's `implode(sep, parts)`. */
  function Join(parts: seq<string>, sep: char): string
    requires |parts| >= 1
  {
    if |parts| == 1 then parts[0] else parts[0] + [sep] + Join(parts[1..], sep)
  }

  /** Splitting loses nothing: joining the pieces gives the string back. */
  lemma {:induction false} JoinSplit(s: string, sep: char)
    ensures Join(Split(s, sep), sep) == s
  {
    if s != [] {
      JoinSplit(s[1..], sep);
      var rest := Split(s[1..], sep);
      if s[0] == sep {
        assert ([""] + rest)[1..] == rest;
      } else {
        var parts := [[s[0]] + rest[0]] + rest[1..];
        if |rest| == 1 {
          assert s == [s[0]] + s[1..];
        } else {
          assert parts[1..] == rest[1..];
          assert s == [s[0]] + s[1..];
        }
      }
    }
  }

  lemma {:induction false} SplitNoSeparator(a: string, sep: char)
    requires sep !in a
    ensures Split(a, sep) == [a]
  {
    if a != [] {
      SplitNoSeparator(a[1..], sep);
      assert a == [a[0]] + a[1..];
    }
  }

  lemma {:induction false} SplitAfterPiece(a: string, b: string, sep: char)
    requires sep !in a
    ensures Split(a + [sep] + b, sep) == [a] + Split(b, sep)
  {
    var s := a + [sep] + b;
    if a == [] {
      assert s[1..] == b;
    } else {
      assert s[1..] == a[1..] + [sep] + b;
      SplitAfterPiece(a[1..], b, sep);
      assert a == [a[0]] + a[1..];
    }
  }

  /** Splitting undoes joining pieces that contain no separator. */
  lemma {:induction false} SplitJoin(parts: seq<string>, sep: char)
    requires |parts| >= 1
    requires forall i :: 0 <= i < |parts| ==> sep !in parts[i]
    ensures Split(Join(parts, sep), sep) == parts
  {
    if |parts| == 1 {
      SplitNoSeparator(parts[0], sep);
    } else {
      SplitJoin(parts[1..], sep);
      SplitAfterPiece(parts[0], Join(parts[1..], sep), sep);
      assert parts == [parts[0]] + parts[1..];
    }
  }

  /** `0 === strpos(s, prefix)`. */
  predicate StartsWith(s: string, prefix: string)
  {
    |prefix| <= |s| && s[..|prefix|] == prefix
  }

  // ---------------------------------------------------------------------
  // Time slots
  // ---------------------------------------------------------------------

  const InvalidTimeSlot := "Invalid time slot"

  /** A delivery window on one day: "YYYY-MM-DD HH:MM-HH:MM". */
  datatype TimeSlot = TimeSlot(date: string, startHour: nat, startMinute: nat, endHour: nat, endMinute: nat)

  /** `[0-9]{4}-[0-9]{2}-[0-9]{2}` */
  predicate IsDatePattern(s: string)
  {
    |s| == 10 && s[4] == '-' && s[7] == '-'
    && forall i :: 0 <= i < 10 && i != 4 && i != 7 ==> IsDigit(s[i])
  }

  /** `[0-9:]+` */
  predicate IsClockChars(s: string)
  {
    |s| > 0 && forall i :: 0 <= i < |s| ==> IsDigit(s[i]) || s[i] == ':'
  }

  predicate ValidTimeSlot(t: TimeSlot)
  {
    IsDatePattern(t.date)
  }

  /**
   * An "H:M" clock time, as `explode(':', ...)` assigned to `[hour, minute]`
   * reads it (pieces after the second are ignored). A missing or non-numeric
   * piece is rejected; the numbers themselves are not range-checked.
   */
  function ParseClock(s: string): Result<(nat, nat)>
  {
    var parts := Split(s, ':');
    if |parts| >= 2 && IsDigits(parts[0]) && IsDigits(parts[1])
    then Ok((DigitsValue(parts[0]), DigitsValue(parts[1])))
    else Err(InvalidTimeSlot)
  }

  /**
   * The time slot match `^([0-9]{4}-[0-9]{2}-[0-9]{2}) ([0-9:]+-[0-9:]+)$`,
   * the range split at '-' and each end at ':'. Like PCRE's `$`, a single
   * final newline is allowed.
   */
  function ParseTimeSlot(s: string): (r: Result<TimeSlot>)
    ensures r.Ok? ==> ValidTimeSlot(r.value) && |s| >= 11 && s[..10] == r.value.date && s[10] == ' '
  {
    var line := if |s| > 0 && s[|s| - 1] == '\n' then s[..|s| - 1] else s;
    if |line| < 11 || !IsDatePattern(line[..10]) || line[10] != ' ' then Err(InvalidTimeSlot)
    else
      var range := Split(line[11..], '-');
      if |range| != 2 || !IsClockChars(range[0]) || !IsClockChars(range[1]) then Err(InvalidTimeSlot)
      else
        match ParseClock(range[0])
        case Err(e) => Err(e)
        case Ok(start) =>
          match ParseClock(range[1])
          case Err(e) => Err(e)
          case Ok(end) => Ok(TimeSlot(line[..10], start.0, start.1, end.0, end.1))
  }

  function FormatClock(hour: nat, minute: nat): string
  {
    Pad2(hour) + ":" + Pad2(minute)
  }

  /** A time slot written as "YYYY-MM-DD HH:MM-HH:MM". */
  function FormatTimeSlot(t: TimeSlot): string
  {
    t.date + " " + FormatClock(t.startHour, t.startMinute) + "-" + FormatClock(t.endHour, t.endMinute)
  }

  lemma ParseFormatClock(hour: nat, minute: nat)
    ensures IsClockChars(FormatClock(hour, minute)) && '-' !in FormatClock(hour, minute)
    ensures ParseClock(FormatClock(hour, minute)) == Ok((hour, minute))
  {
    Pad2Value(hour);
    Pad2Value(minute);
    var h, m := Pad2(hour), Pad2(minute);
    assert ':' !in h && ':' !in m by {
      assert forall i :: 0 <= i < |h| ==> IsDigit(h[i]);
      assert forall i :: 0 <= i < |m| ==> IsDigit(m[i]);
    }
    SplitAfterPiece(h, m, ':');
    SplitNoSeparator(m, ':');
    var s := FormatClock(hour, minute);
    forall i | 0 <= i < |s|
      ensures (IsDigit(s[i]) || s[i] == ':') && s[i] != '-'
    {
      if i < |h| {
        assert s[i] == h[i];
      } else if i > |h| {
        assert s[i] == m[i - |h| - 1];
      }
    }
  }

  /** A date, a space and two clock times joined by '-' read as the slot of those clock times. */
  lemma ParseTimeSlotOfParts(date: string, a: string, b: string)
    requires IsDatePattern(date) && IsClockChars(a) && IsClockChars(b) && '-' !in a && '-' !in b
    requires ParseClock(a).Ok? && ParseClock(b).Ok?
    ensures ParseTimeSlot(date + " " + a + "-" + b)
            == Ok(TimeSlot(date, ParseClock(a).value.0, ParseClock(a).value.1, ParseClock(b).value.0, ParseClock(b).value.1))
  {
    var s := date + " " + a + "-" + b;
    assert s[|s| - 1] == b[|b| - 1];
    assert s[..10] == date;
    assert s[11..] == a + ['-'] + b;
    SplitAfterPiece(a, b, '-');
    SplitNoSeparator(b, '-');
  }

  /** Every well-formed time slot reads back as itself. */
  lemma ParseFormatTimeSlot(t: TimeSlot)
    requires ValidTimeSlot(t)
    ensures ParseTimeSlot(FormatTimeSlot(t)) == Ok(t)
  {
    var a := FormatClock(t.startHour, t.startMinute);
    var b := FormatClock(t.endHour, t.endMinute);
    ParseFormatClock(t.startHour, t.startMinute);
    ParseFormatClock(t.endHour, t.endMinute);
    ParseTimeSlotOfParts(t.date, a, b);
  }

  // ---------------------------------------------------------------------
  // Dates and the ATOM format
  // ---------------------------------------------------------------------

  /** A PHP DateTime: a calendar day as "YYYY-MM-DD", a time of day, and a UTC offset as "+HH:MM". */
  datatype DateTime = DateTime(date: string, hour: nat, minute: nat, second: nat, offset: string)

  /** `$dateTime->setTime($hour, $minute)`: seconds reset to zero. */
  function SetTime(d: DateTime, hour: nat, minute: nat): DateTime
  {
    d.(hour := hour, minute := minute, second := 0)
  }

  /** `[+-][0-9]{2}:[0-9]{2}` */
  predicate IsOffsetPattern(s: string)
  {
    |s| == 6 && (s[0] == '+' || s[0] == '-') && IsDigit(s[1]) && IsDigit(s[2]) && s[3] == ':' && IsDigit(s[4]) && IsDigit(s[5])
  }

  predicate ValidDateTime(d: DateTime)
  {
    IsDatePattern(d.date) && d.hour < 24 && d.minute < 60 && d.second < 60 && IsOffsetPattern(d.offset)
  }

  /** `DateTime::ATOM`, "Y-m-d\TH:i:sP": the date-time of section 5.6 of RFC 3339. */
  function Atom(d: DateTime): string
  {
    d.date + "T" + Pad2(d.hour) + ":" + Pad2(d.minute) + ":" + Pad2(d.second) + d.offset
  }

  function TwoDigits(s: string): nat
    requires |s| == 2 && IsDigits(s)
  {
    DigitsValue(s)
  }

  /** Reads an ATOM date-time back, if the string is one. */
  function ParseAtom(s: string): Option<DateTime>
  {
    if |s| == 25 && IsDatePattern(s[..10]) && s[10] == 'T'
       && IsDigits(s[11..13]) && s[13] == ':' && IsDigits(s[14..16]) && s[16] == ':' && IsDigits(s[17..19])
       && IsOffsetPattern(s[19..])
       && TwoDigits(s[11..13]) < 24 && TwoDigits(s[14..16]) < 60 && TwoDigits(s[17..19]) < 60
    then Some(DateTime(s[..10], TwoDigits(s[11..13]), TwoDigits(s[14..16]), TwoDigits(s[17..19]), s[19..]))
    else None
  }

  /** A valid date-time is written on 25 characters and reads back as itself. */
  lemma ParseAtomOfAtom(d: DateTime)
    requires ValidDateTime(d)
    ensures |Atom(d)| == 25 && ParseAtom(Atom(d)) == Some(d)
  {
    Pad2Value(d.hour);
    Pad2Value(d.minute);
    Pad2Value(d.second);
    var s := Atom(d);
    assert s[..10] == d.date;
    assert s[11..13] == Pad2(d.hour);
    assert s[14..16] == Pad2(d.minute);
    assert s[17..19] == Pad2(d.second);
    assert s[19..] == d.offset;
  }

  /** Every string that reads as a date-time is exactly how that date-time is written. */
  lemma AtomOfParseAtom(s: string)
    requires ParseAtom(s).Some?
    ensures ValidDateTime(ParseAtom(s).value) && Atom(ParseAtom(s).value) == s
  {
    Pad2OfDigits(s[11..13]);
    Pad2OfDigits(s[14..16]);
    Pad2OfDigits(s[17..19]);
    var d := ParseAtom(s).value;
    assert Atom(d) == s[..10] + s[10..11] + s[11..13] + s[13..14] + s[14..16] + s[16..17] + s[17..19] + s[19..];
  }

  // ---------------------------------------------------------------------
  // Entities and request data
  // ---------------------------------------------------------------------

  datatype GeoCoordinates = GeoCoordinates(latitude: real, longitude: real)

  /** An address: the fields the inner normalizer fills in, and its coordinates if known. */
  datatype Address = Address(fields: PhpArray, geo: Option<GeoCoordinates>)

  class Task {
    const id: int
    var doneAfter: Option<DateTime>
    var doneBefore: Option<DateTime>
    var address: Option<Address>

    constructor (id: int, doneAfter: Option<DateTime>, doneBefore: Option<DateTime>, address: Option<Address>)
      ensures this.id == id && this.doneAfter == doneAfter && this.doneBefore == doneBefore && this.address == address
    {
      this.id := id;
      this.doneAfter := doneAfter;
      this.doneBefore := doneBefore;
      this.address := address;
    }

    function State(): TaskState
      reads this
    {
      TaskState(doneAfter, doneBefore, address)
    }
  }

  /** The part of a task that denormalization may change. */
  datatype TaskState = TaskState(doneAfter: Option<DateTime>, doneBefore: Option<DateTime>, address: Option<Address>)

  class Delivery {
    const pickup: Task
    const dropoff: Task
    const color: Option<string>

    ghost predicate Valid()
    {
      pickup != dropoff
    }

    constructor (pickup: Task, dropoff: Task, color: Option<string>)
      requires pickup != dropoff
      ensures Valid()
      ensures this.pickup == pickup && this.dropoff == dropoff && this.color == color
    {
      this.pickup := pickup;
      this.dropoff := dropoff;
      this.color := color;
    }
  }

  /** The `address` entry of a task's data: a string, an array, or some other JSON value. */
  datatype AddressInput =
    | AddressText(text: string)
    | AddressObject(fields: PhpArray, latLng: Option<GeoCoordinates>)
    | AddressOther

  /** A task's data; `None` stands for a key that is absent or null (`isset` is false). */
  datatype TaskInput = TaskInput(timeSlot: Option<string>, before: Option<string>, doneBefore: Option<string>, address: Option<AddressInput>)

  datatype DeliveryInput = DeliveryInput(pickup: Option<TaskInput>, dropoff: Option<TaskInput>)

  /** What the serializer's collaborators return. */
  datatype Collaborators = Collaborators(
    parseDateTime: string -> DateTime,          // new \DateTime($text)
    addressIriPrefix: string,                   // the IRI of the Address resource class
    addressFromIri: string -> Address,          // the IRI converter's item for an IRI
    geocode: string -> Option<Address>,         // the geocoder, null when it finds nothing
    denormalizeAddress: PhpArray -> Address,    // the inner normalizer, reading an Address
    normalizeAddress: Option<Address> -> Value) // the inner normalizer, writing an Address

  // ---------------------------------------------------------------------
  // Denormalization
  // ---------------------------------------------------------------------

  /** `denormalizeAddress`: the coordinates from `latLng` are used only when the address has none. */
  function DenormalizeAddress(fields: PhpArray, latLng: Option<GeoCoordinates>, env: Collaborators): (a: Address)
    ensures a.fields == env.denormalizeAddress(fields).fields
    ensures env.denormalizeAddress(fields).geo.Some? ==> a.geo == env.denormalizeAddress(fields).geo
    ensures env.denormalizeAddress(fields).geo.None? ==> a.geo == latLng
  {
    var address := env.denormalizeAddress(fields);
    if address.geo.None? && latLng.Some? then address.(geo := latLng) else address
  }

  /** The address a task is given for an `address` entry. */
  function ResolveAddress(input: AddressInput, env: Collaborators): Option<Address>
  {
    match input
    case AddressText(text) =>
      if StartsWith(text, env.addressIriPrefix) then Some(env.addressFromIri(text)) else env.geocode(text)
    case AddressObject(fields, latLng) => Some(DenormalizeAddress(fields, latLng, env))
    case AddressOther => None
  }

  /**
   * The task state `denormalizeTask` produces: the time slot, else
   * `before`, else `doneBefore` sets the deadline; then the address, when
   * given. A malformed time slot is an error.
   */
  function DenormalizedTask(data: TaskInput, state: TaskState, env: Collaborators): (r: Result<TaskState>)
    ensures r.Err? <==> data.timeSlot.Some? && ParseTimeSlot(data.timeSlot.value).Err?
    ensures r.Ok? && data.address.None? ==> r.value.address == state.address
    ensures r.Ok? && data.timeSlot.None? ==> r.value.doneAfter == state.doneAfter
  {
    var times :=
      if data.timeSlot.Some? then
        match ParseTimeSlot(data.timeSlot.value)
        case Err(e) => Err(e)
        case Ok(t) =>
          var day := env.parseDateTime(t.date);
          Ok((Some(SetTime(day, t.startHour, t.startMinute)), Some(SetTime(day, t.endHour, t.endMinute))))
      else if data.before.Some? then Ok((state.doneAfter, Some(env.parseDateTime(data.before.value))))
      else if data.doneBefore.Some? then Ok((state.doneAfter, Some(env.parseDateTime(data.doneBefore.value))))
      else Ok((state.doneAfter, state.doneBefore));
    match times
    case Err(e) => Err(e)
    case Ok(t) =>
      var address := if data.address.Some? then ResolveAddress(data.address.value, env) else state.address;
      Ok(TaskState(t.0, t.1, address))
  }

  /** A well-formed time slot sets both ends of the window on its day, whatever `before` or `doneBefore` say. */
  lemma TimeSlotSetsWindow(data: TaskInput, state: TaskState, env: Collaborators, t: TimeSlot)
    requires ValidTimeSlot(t) && data.timeSlot == Some(FormatTimeSlot(t))
    ensures var r := DenormalizedTask(data, state, env);
            && r.Ok?
            && r.value.doneAfter == Some(env.parseDateTime(t.date).(hour := t.startHour, minute := t.startMinute, second := 0))
            && r.value.doneBefore == Some(env.parseDateTime(t.date).(hour := t.endHour, minute := t.endMinute, second := 0))
  {
    ParseFormatTimeSlot(t);
  }

  /** Without a time slot, `before` sets the deadline and wins over `doneBefore`; the start is kept. */
  lemma BeforeWinsOverDoneBefore(data: TaskInput, state: TaskState, env: Collaborators)
    requires data.timeSlot.None? && data.before.Some?
    ensures var r := DenormalizedTask(data, state, env);
            r.Ok? && r.value.doneAfter == state.doneAfter && r.value.doneBefore == Some(env.parseDateTime(data.before.value))
  {
  }

  /** Without a time slot or `before`, `doneBefore` sets the deadline; with none of the three, both times are kept. */
  lemma DoneBeforeLast(data: TaskInput, state: TaskState, env: Collaborators)
    requires data.timeSlot.None? && data.before.None?
    ensures var r := DenormalizedTask(data, state, env);
            && r.Ok? && r.value.doneAfter == state.doneAfter
            && r.value.doneBefore == (if data.doneBefore.Some? then Some(env.parseDateTime(data.doneBefore.value)) else state.doneBefore)
  {
  }

  /**
   * A text address is looked up as an IRI when it starts with the Address
   * IRI and geocoded otherwise; an object is denormalized; any other value
   * clears the address.
   */
  lemma AddressDispatch(data: TaskInput, state: TaskState, env: Collaborators)
    requires data.address.Some? && DenormalizedTask(data, state, env).Ok?
    ensures var address := DenormalizedTask(data, state, env).value.address;
            match data.address.value
            case AddressText(text) =>
              address == (if |env.addressIriPrefix| <= |text| && text[..|env.addressIriPrefix|] == env.addressIriPrefix
                          then Some(env.addressFromIri(text)) else env.geocode(text))
            case AddressObject(fields, latLng) =>
              && address.Some? && address.value.fields == env.denormalizeAddress(fields).fields
              && (address.value.geo.Some? <==> env.denormalizeAddress(fields).geo.Some? || latLng.Some?)
            case AddressOther => address.None?
  {
  }

  /** `denormalizeTask`, applied to the task in place. A malformed time slot leaves the task as it was. */
  method DenormalizeTask(data: TaskInput, task: Task, env: Collaborators) returns (r: Outcome)
    modifies task
    ensures DenormalizedTask(data, old(task.State()), env).Err? ==>
              r == Fail(InvalidTimeSlot) && task.State() == old(task.State())
    ensures DenormalizedTask(data, old(task.State()), env).Ok? ==>
              r == Pass && task.State() == DenormalizedTask(data, old(task.State()), env).value
  {
    if data.timeSlot.Some? {
      var slot := ParseTimeSlot(data.timeSlot.value);
      if slot.Err? {
        return Fail(InvalidTimeSlot);
      }
      var t := slot.value;
      var after := SetTime(env.parseDateTime(t.date), t.startHour, t.startMinute);
      var before := SetTime(env.parseDateTime(t.date), t.endHour, t.endMinute);
      task.doneAfter := Some(after);
      task.doneBefore := Some(before);
    } else if data.before.Some? {
      task.doneBefore := Some(env.parseDateTime(data.before.value));
    } else if data.doneBefore.Some? {
      task.doneBefore := Some(env.parseDateTime(data.doneBefore.value));
    }

    if data.address.Some? {
      var address: Option<Address> := None;
      match data.address.value {
        case AddressText(text) =>
          if StartsWith(text, env.addressIriPrefix) {
            address := Some(env.addressFromIri(text));
          } else {
            address := env.geocode(text);
          }
        case AddressObject(fields, latLng) =>
          address := Some(DenormalizeAddress(fields, latLng, env));
        case AddressOther =>
      }
      task.address := address;
    }
    r := Pass;
  }

  /**
   * `denormalize`: the dropoff's data is applied first, then the pickup's;
   * a task whose key is absent is not touched. A malformed time slot stops
   * there.
   */
  method Denormalize(data: DeliveryInput, delivery: Delivery, env: Collaborators) returns (r: Outcome)
    requires delivery.Valid()
    modifies delivery.pickup, delivery.dropoff
    ensures data.dropoff.None? ==> delivery.dropoff.State() == old(delivery.dropoff.State())
    ensures data.pickup.None? ==> delivery.pickup.State() == old(delivery.pickup.State())
    ensures data.dropoff.Some? ==>
              match DenormalizedTask(data.dropoff.value, old(delivery.dropoff.State()), env)
              case Err(e) => r == Fail(e) && delivery.dropoff.State() == old(delivery.dropoff.State())
                             && delivery.pickup.State() == old(delivery.pickup.State())
              case Ok(s) => delivery.dropoff.State() == s
    ensures data.pickup.Some? && (data.dropoff.None? || DenormalizedTask(data.dropoff.value, old(delivery.dropoff.State()), env).Ok?) ==>
              match DenormalizedTask(data.pickup.value, old(delivery.pickup.State()), env)
              case Err(e) => r == Fail(e) && delivery.pickup.State() == old(delivery.pickup.State())
              case Ok(s) => delivery.pickup.State() == s
    ensures r == Pass <==>
              (data.dropoff.None? || DenormalizedTask(data.dropoff.value, old(delivery.dropoff.State()), env).Ok?)
              && (data.pickup.None? || DenormalizedTask(data.pickup.value, old(delivery.pickup.State()), env).Ok?)
  {
    r := Pass;
    if data.dropoff.Some? {
      r := DenormalizeTask(data.dropoff.value, delivery.dropoff, env);
      if r.Fail? {
        return;
      }
    }
    if data.pickup.Some? {
      r := DenormalizeTask(data.pickup.value, delivery.pickup, env);
    }
  }

  // ---------------------------------------------------------------------
  // Normalization
  // ---------------------------------------------------------------------

  /** `normalizeTask`: exactly the id, the address and the deadline in ATOM format. */
  function NormalizedTask(id: int, address: Option<Address>, doneBefore: DateTime, env: Collaborators): (v: Value)
    ensures v.Dict? && v.entries.Keys == {"id", "address", "doneBefore"}
    ensures v.entries["id"] == Int(id) && v.entries["address"] == env.normalizeAddress(address)
    ensures v.entries["doneBefore"].Str? && (ValidDateTime(doneBefore) ==> ParseAtom(v.entries["doneBefore"].s) == Some(doneBefore))
  {
    ParseAtomIfValid(doneBefore);
    Dict(map["id" := Int(id), "address" := env.normalizeAddress(address), "doneBefore" := Str(Atom(doneBefore))])
  }

  lemma ParseAtomIfValid(d: DateTime)
    ensures ValidDateTime(d) ==> ParseAtom(Atom(d)) == Some(d)
  {
    if ValidDateTime(d) {
      ParseAtomOfAtom(d);
    }
  }

  /**
   * `normalize`: the inner normalizer's output `base`, without `items`
   * (unless it is null), with the two tasks and the color set.
   * Formatting a missing deadline fails in the source, so both tasks must
   * have one.
   */
  method Normalize(delivery: Delivery, base: PhpArray, env: Collaborators) returns (data: PhpArray)
    requires delivery.pickup.doneBefore.Some? && delivery.dropoff.doneBefore.Some?
    ensures data.Keys == (base.Keys - (if "items" in base && base["items"] != Null then {"items"} else {}))
                         + {"pickup", "dropoff", "color"}
    ensures forall k :: k in base && (k != "items" || base[k] == Null) && k != "pickup" && k != "dropoff" && k != "color" ==> data[k] == base[k]
    ensures data["pickup"] == NormalizedTask(delivery.pickup.id, delivery.pickup.address, delivery.pickup.doneBefore.value, env)
    ensures data["dropoff"] == NormalizedTask(delivery.dropoff.id, delivery.dropoff.address, delivery.dropoff.doneBefore.value, env)
    ensures data["color"] == StrOrNull(delivery.color)
  {
    data := base;
    if "items" in data && data["items"] != Null {
      data := data - {"items"};
    }
    data := data["pickup" := NormalizedTask(delivery.pickup.id, delivery.pickup.address, delivery.pickup.doneBefore.value, env)];
    data := data["dropoff" := NormalizedTask(delivery.dropoff.id, delivery.dropoff.address, delivery.dropoff.doneBefore.value, env)];
    data := data["color" := StrOrNull(delivery.color)];
  }
}
