/** Redis stream IDs, how they print, and what comparing the printed forms means.

    A subscription's end bound is kept as a string, and every message ID is compared with it
    as a string. This module relates that order to the order of the IDs themselves.
  */
module StreamIds {
  import opened Options

  // ---------- Strings, as Go compares them ----------

  predicate StrLess(a: string, b: string)
    decreases |a|
  {
    if b == [] then false
    else if a == [] then true
    else if a[0] != b[0] then a[0] < b[0]
    else StrLess(a[1..], b[1..])
  }

  predicate StrAtLeast(a: string, b: string) {
    !StrLess(a, b)
  }

  // ---------- Decimal printing ----------

  function DigitChar(d: nat): char
    requires d < 10
  {
    '0' + d as char
  }

  function Decimal(n: nat): string {
    if n < 10 then [DigitChar(n)] else Decimal(n / 10) + [DigitChar(n % 10)]
  }

  function Width(n: nat): nat {
    |Decimal(n)|
  }

  // The number written by the first w digits of n.
  function Lead(n: nat, w: nat): nat
    requires 1 <= w <= Width(n)
  {
    if w == Width(n) then n else Lead(n / 10, w)
  }

  // strconv.FormatInt with base 10.
  function FormatInt(n: int): string {
    if n < 0 then "-" + Decimal(-n) else Decimal(n)
  }

  // ---------- IDs ----------

  datatype Id = Id(ms: nat, seqNo: nat) {
    predicate Less(other: Id) {
      ms < other.ms || (ms == other.ms && seqNo < other.seqNo)
    }

    predicate AtLeast(other: Id) {
      !Less(other)
    }

    function Show(): string {
      Decimal(ms) + "-" + Decimal(seqNo)
    }
  }

  const ZERO_ID := Id(0, 0)

  // Whether a message ID has reached a subscription's end bound; no bound is never reached.
  predicate Exceeds(bound: Option<string>, id: Id) {
    bound.Some? && StrAtLeast(id.Show(), bound.value)
  }

  // Comparing the leading digits of two different numbers already tells which is smaller.
  // Numbers of the same width always agree.
  predicate NumbersAgree(a: nat, b: nat) {
    if Width(a) < Width(b) then DecimalNonEmpty(a); a <= Lead(b, Width(a))
    else if Width(b) < Width(a) then DecimalNonEmpty(b); b <= Lead(a, Width(b))
    else true
  }

  // The first component in which two IDs differ has to agree.
  predicate IdsAgree(a: Id, b: Id) {
    if a.ms != b.ms then NumbersAgree(a.ms, b.ms) else NumbersAgree(a.seqNo, b.seqNo)
  }

  lemma DecimalNonEmpty(n: nat)
    ensures 1 <= Width(n)
  {
  }

  lemma {:induction false} DecimalDigits(n: nat, k: nat)
    requires k < Width(n)
    ensures '0' <= Decimal(n)[k] <= '9'
  {
    if 10 <= n && k < Width(n / 10) {
      DecimalDigits(n / 10, k);
    }
  }

  lemma {:induction false} StrLessIrreflexive(a: string)
    ensures !StrLess(a, a)
  {
    if a != [] {
      StrLessIrreflexive(a[1..]);
    }
  }

  // Strings that start with blocks of one length compare block first.
  lemma {:induction false} StrLessBlocks(a: string, b: string, x: string, y: string)
    requires |a| == |b|
    ensures StrLess(a + x, b + y) <==> StrLess(a, b) || (a == b && StrLess(x, y))
    decreases |a|
  {
    if a == [] {
      assert a + x == x && b + y == y;
    } else {
      assert (a + x)[1..] == a[1..] + x && (b + y)[1..] == b[1..] + y;
      StrLessBlocks(a[1..], b[1..], x, y);
      assert a == [a[0]] + a[1..] && b == [b[0]] + b[1..];
    }
  }

  lemma {:induction false} DecimalOrder(a: nat, b: nat)
    requires Width(a) == Width(b)
    ensures StrLess(Decimal(a), Decimal(b)) <==> a < b
    ensures Decimal(a) == Decimal(b) <==> a == b
  {
    DecimalNonEmpty(a / 10);
    DecimalNonEmpty(b / 10);
    if a < 10 {
      assert b < 10;
    } else {
      var da, db := [DigitChar(a % 10)], [DigitChar(b % 10)];
      DecimalOrder(a / 10, b / 10);
      StrLessBlocks(Decimal(a / 10), Decimal(b / 10), da, db);
      assert Decimal(a)[..|Decimal(a)| - 1] == Decimal(a / 10);
      assert Decimal(b)[..|Decimal(b)| - 1] == Decimal(b / 10);
      assert Decimal(a)[|Decimal(a)| - 1] == da[0] && Decimal(b)[|Decimal(b)| - 1] == db[0];
    }
  }

  lemma {:induction false} LeadIsPrefix(n: nat, w: nat)
    requires 1 <= w <= Width(n)
    ensures Decimal(Lead(n, w)) == Decimal(n)[..w]
  {
    if w < Width(n) {
      LeadIsPrefix(n / 10, w);
    }
  }

  // What may follow a number inside a printed ID: nothing, or a separator below every digit.
  predicate IsTail(x: string) {
    x == [] || x[0] < '0'
  }

  lemma ShorterBlock(a: string, b: string, x: string, y: string)
    requires |a| < |b| && b[|a|] >= '0' && IsTail(x)
    ensures StrLess(a + x, b + y) <==> StrLess(a, b[..|a|]) || a == b[..|a|]
    ensures StrLess(b + y, a + x) <==> StrLess(b[..|a|], a)
  {
    var p, rest := b[..|a|], b[|a|..] + y;
    assert b + y == p + rest && rest[0] == b[|a|];
    StrLessBlocks(a, p, x, rest);
    StrLessBlocks(p, a, rest, x);
  }

  // A shorter number is below a longer one exactly when it is at most the longer one's lead.
  lemma ShorterNumber(a: nat, b: nat, x: string, y: string)
    requires Width(a) < Width(b) && IsTail(x)
    ensures 1 <= Width(a)
    ensures StrLess(Decimal(a) + x, Decimal(b) + y) <==> a <= Lead(b, Width(a))
    ensures StrLess(Decimal(b) + y, Decimal(a) + x) <==> Lead(b, Width(a)) < a
    ensures a < b
  {
    DecimalNonEmpty(a);
    var lead := Lead(b, Width(a));
    LeadIsPrefix(b, Width(a));
    DecimalDigits(b, Width(a));
    ShorterBlock(Decimal(a), Decimal(b), x, y);
    DecimalOrder(a, lead);
    DecimalOrder(lead, a);
    WiderIsLarger(a, b);
  }

  lemma {:induction false} WiderIsLarger(a: nat, b: nat)
    requires Width(a) < Width(b)
    ensures a < b
  {
    DecimalNonEmpty(a);
    if 10 <= a {
      WiderIsLarger(a / 10, b / 10);
    }
  }

  // The one comparison behind both components of an ID, in every combination of widths.
  lemma CompareNumbers(a: nat, b: nat, x: string, y: string)
    requires IsTail(x) && IsTail(y)
    ensures a == b ==> (StrLess(Decimal(a) + x, Decimal(b) + y) <==> StrLess(x, y))
    ensures a != b ==> ((StrLess(Decimal(a) + x, Decimal(b) + y) <==> a < b) <==> NumbersAgree(a, b))
  {
    if Width(a) == Width(b) {
      StrLessBlocks(Decimal(a), Decimal(b), x, y);
      DecimalOrder(a, b);
      StrLessIrreflexive(Decimal(a));
    } else if Width(a) < Width(b) {
      ShorterNumber(a, b, x, y);
    } else {
      ShorterNumber(b, a, y, x);
    }
  }

  // For every pair of IDs: the string test gives the numeric answer exactly when the first
  // differing components agree on their leading digits.
  lemma StringOrderIsIdOrder(id: Id, end: Id)
    ensures (StrAtLeast(id.Show(), end.Show()) <==> id.AtLeast(end)) <==> IdsAgree(id, end)
  {
    var x, y := "-" + Decimal(id.seqNo), "-" + Decimal(end.seqNo);
    assert id.Show() == Decimal(id.ms) + x && end.Show() == Decimal(end.ms) + y;
    CompareNumbers(id.ms, end.ms, x, y);
    StrLessBlocks("-", "-", Decimal(id.seqNo), Decimal(end.seqNo));
    StrLessIrreflexive("-");
    assert Decimal(id.seqNo) + "" == Decimal(id.seqNo) && Decimal(end.seqNo) + "" == Decimal(end.seqNo);
    CompareNumbers(id.seqNo, end.seqNo, "", "");
  }

  // A bound that is only a millisecond count, as a date resolves to, stands for the first ID
  // of that millisecond, under the same exact condition.
  lemma BareMillisIsFirstId(id: Id, ms: nat)
    ensures (StrAtLeast(id.Show(), Decimal(ms)) <==> id.AtLeast(Id(ms, 0)))
            <==> id.ms == ms || NumbersAgree(id.ms, ms)
  {
    var x := "-" + Decimal(id.seqNo);
    assert id.Show() == Decimal(id.ms) + x && Decimal(ms) + "" == Decimal(ms);
    CompareNumbers(id.ms, ms, x, "");
  }

  // Two IDs of one millisecond whose sequence numbers differ in width are misordered: with the
  // end at sequence 9 the tenth message is let through, with the end at 10 the ninth is not.
  lemma SequenceWidthMatters(ms: nat)
    ensures Id(ms, 10).AtLeast(Id(ms, 9)) && !Exceeds(Some(Id(ms, 9).Show()), Id(ms, 10))
    ensures Id(ms, 9).Less(Id(ms, 10)) && Exceeds(Some(Id(ms, 10).Show()), Id(ms, 9))
  {
    assert Decimal(9) == "9" && Decimal(1) == "1" && Decimal(10) == "10";
    assert Width(9) == 1 && Width(10) == 2;
    assert Lead(10, 1) == Lead(1, 1) == 1;
    StringOrderIsIdOrder(Id(ms, 10), Id(ms, 9));
    StringOrderIsIdOrder(Id(ms, 9), Id(ms, 10));
  }

  // ---------- Reading IDs back, as the server does ----------

  function ParseDecimal(s: string): Option<nat> {
    if s == [] then None
    else
      var last := s[|s| - 1];
      if !('0' <= last <= '9') then None
      else if |s| == 1 then Some((last - '0') as nat)
      else
        var front := ParseDecimal(s[..|s| - 1]);
        if front.None? then None else Some(10 * front.value + (last - '0') as nat)
  }

  // The position of the first separator, or the length of the string.
  function Separator(s: string): (n: nat)
    ensures n <= |s| && (n < |s| ==> s[n] == '-')
  {
    if s == [] || s[0] == '-' then 0 else 1 + Separator(s[1..])
  }

  // A missing sequence number is 0.
  function ParseId(s: string): Option<Id> {
    var n := Separator(s);
    var ms := ParseDecimal(s[..n]);
    if ms.None? then None
    else if n == |s| then Some(Id(ms.value, 0))
    else
      var seqNo := ParseDecimal(s[n + 1..]);
      if seqNo.None? then None else Some(Id(ms.value, seqNo.value))
  }

  lemma {:induction false} DecimalRoundTrip(n: nat)
    ensures ParseDecimal(Decimal(n)) == Some(n)
  {
    var s := Decimal(n);
    if n < 10 {
      assert s[|s| - 1] == DigitChar(n);
    } else {
      DecimalRoundTrip(n / 10);
      DecimalNonEmpty(n / 10);
      assert s[..|s| - 1] == Decimal(n / 10) && s[|s| - 1] == DigitChar(n % 10);
    }
  }

  lemma {:induction false} FirstSeparator(a: string, x: string)
    requires forall k :: 0 <= k < |a| ==> a[k] != '-'
    requires x == [] || x[0] == '-'
    ensures Separator(a + x) == |a|
    decreases |a|
  {
    if a == [] {
      assert a + x == x;
    } else {
      assert (a + x)[1..] == a[1..] + x;
      FirstSeparator(a[1..], x);
    }
  }

  // What the program prints is what the server reads, with or without a sequence number.
  lemma IdRoundTrip(id: Id)
    ensures ParseId(id.Show()) == Some(id)
    ensures ParseId(Decimal(id.ms)) == Some(Id(id.ms, 0))
  {
    var a, x := Decimal(id.ms), "-" + Decimal(id.seqNo);
    forall k | 0 <= k < |a| ensures a[k] != '-' {
      DecimalDigits(id.ms, k);
    }
    FirstSeparator(a, x);
    FirstSeparator(a, "");
    assert id.Show() == a + x && a + "" == a;
    assert id.Show()[..|a|] == a && id.Show()[|a| + 1..] == Decimal(id.seqNo) && a[..|a|] == a;
    DecimalRoundTrip(id.ms);
    DecimalRoundTrip(id.seqNo);
  }

  // ---------- Bounds of a trigger ----------

  datatype Bounds = Bounds(start: Option<string>, end: Option<string>)
  datatype TriggerBounds = TriggerBounds(byId: Option<Bounds>, byDate: Option<Bounds>)

  function GetStart(b: Option<Bounds>): string {
    if b.None? || b.value.start.None? then "" else b.value.start.value
  }

  function GetEnd(b: Option<Bounds>): string {
    if b.None? || b.value.end.None? then "" else b.value.end.value
  }

  // parse gives a date's Unix milliseconds, or None when it cannot be parsed.
  function ResolveBounds(bounds: Option<TriggerBounds>, parse: string -> Option<int>)
    : Result<(string, string), string>
  {
    if bounds.None? then Success(("$", ""))
    else
      var dateStart, dateEnd := GetStart(bounds.value.byDate), GetEnd(bounds.value.byDate);
      if dateStart != "" && parse(dateStart).None? then Failure("parsing bounds start date")
      else if dateEnd != "" && parse(dateEnd).None? then Failure("parsing bounds end date")
      else
        var start := if dateStart == "" then "$" else FormatInt(parse(dateStart).value);
        var end := if dateEnd == "" then "" else FormatInt(parse(dateEnd).value);
        var idStart, idEnd := GetStart(bounds.value.byId), GetEnd(bounds.value.byId);
        Success((if idStart != "" then idStart else start, if idEnd != "" then idEnd else end))
  }

  // Subscribe installs a check only for a non-empty end.
  function EndBound(end: string): Option<string> {
    if end == "" then None else Some(end)
  }

  // An end given by ID wins over an end given by date, and a canonical one stops the replay
  // at that ID; without it, the end date stops the replay at its millisecond.
  lemma ResolvedEndStopsReplay(bounds: TriggerBounds, parse: string -> Option<int>, id: Id, end: Id)
    requires ResolveBounds(Some(bounds), parse).Success?
    ensures var bound := EndBound(ResolveBounds(Some(bounds), parse).value.1);
            && (GetEnd(bounds.byId) == end.Show() && IdsAgree(id, end) ==>
                  (Exceeds(bound, id) <==> id.AtLeast(end)))
            && (GetEnd(bounds.byId) == "" && GetEnd(bounds.byDate) != ""
                && parse(GetEnd(bounds.byDate)) == Some(end.ms)
                && (id.ms == end.ms || NumbersAgree(id.ms, end.ms)) ==>
                  (Exceeds(bound, id) <==> id.AtLeast(Id(end.ms, 0))))
            && (GetEnd(bounds.byId) == "" && GetEnd(bounds.byDate) == "" ==> !Exceeds(bound, id))
  {
    DecimalNonEmpty(end.ms);
    StringOrderIsIdOrder(id, end);
    BareMillisIsFirstId(id, end.ms);
  }

  // The group starts at the ID given, or else at the first ID of the start date, or else at the
  // end of the stream. A date that cannot be parsed is an error even where an ID would win.
  lemma ResolvedStart(bounds: TriggerBounds, parse: string -> Option<int>, start: Id)
    ensures var r, byDate := ResolveBounds(Some(bounds), parse), bounds.byDate;
            && (r.Failure? <==> exists date <- [GetStart(byDate), GetEnd(byDate)] :: date != "" && parse(date).None?)
            && (r.Success? && GetStart(bounds.byId) == start.Show() ==> ParseId(r.value.0) == Some(start))
            && ((r.Success? && GetStart(bounds.byId) == "" && GetStart(byDate) != ""
                 && parse(GetStart(byDate)) == Some(start.ms)) ==>
                  ParseId(r.value.0) == Some(Id(start.ms, 0)))
            && (r.Success? && GetStart(bounds.byId) == "" && GetStart(byDate) == "" ==> r.value.0 == "$")
  {
    IdRoundTrip(start);
    DecimalNonEmpty(start.ms);
    var dates := [GetStart(bounds.byDate), GetEnd(bounds.byDate)];
    assert dates[0] in dates && dates[1] in dates;
  }

  // ---------- What a trigger asks for, read off its fields ----------

  // This text is informed as the end, or the start, of these bounds.
  predicate HasEnd(b: Option<Bounds>, text: string) {
    b.Some? && b.value.end == Some(text) && text != ""
  }

  predicate HasStart(b: Option<Bounds>, text: string) {
    b.Some? && b.value.start == Some(text) && text != ""
  }

  predicate NoEnd(b: Option<Bounds>) {
    b.None? || b.value.end in {None, Some("")}
  }

  predicate NoStart(b: Option<Bounds>) {
    b.None? || b.value.start in {None, Some("")}
  }

  // A date that is informed and cannot be parsed.
  ghost predicate BadDate(b: Option<Bounds>, parse: string -> Option<int>) {
    exists text :: (HasStart(b, text) || HasEnd(b, text)) && parse(text).None?
  }

  // Before 1970 a date counts negatively. As an end it is below every ID, so that it stops all
  // messages; as a start it is no ID the server could read.
  lemma NegativeDates(ms: int, id: Id)
    requires ms < 0
    ensures Exceeds(EndBound(FormatInt(ms)), id)
    ensures ParseId(FormatInt(ms)).None?
  {
    var text := FormatInt(ms);
    DecimalNonEmpty(id.ms);
    DecimalDigits(id.ms, 0);
    assert text[0] == '-' && id.Show()[0] == Decimal(id.ms)[0];
    assert text[..0] == [];
  }

  // Resolution fails exactly for a bad date. Otherwise, with bounds or without: the end is the one
  // informed by ID, or else the millisecond of the end date, or else there is none; and the start
  // likewise, or else the end of the stream.
  lemma ResolvesAsAsked(bounds: Option<TriggerBounds>, parse: string -> Option<int>, text: string)
    ensures var r := ResolveBounds(bounds, parse);
            var byId := if bounds.Some? then bounds.value.byId else None;
            var byDate := if bounds.Some? then bounds.value.byDate else None;
            && (r.Failure? <==> BadDate(byDate, parse))
            && (r.Success? ==>
                  && (HasEnd(byId, text) ==> r.value.1 == text)
                  && (NoEnd(byId) && HasEnd(byDate, text) ==>
                        parse(text).Some? && r.value.1 == FormatInt(parse(text).value))
                  && (NoEnd(byId) && NoEnd(byDate) ==> r.value.1 == "")
                  && (HasStart(byId, text) ==> r.value.0 == text)
                  && (NoStart(byId) && HasStart(byDate, text) ==>
                        parse(text).Some? && r.value.0 == FormatInt(parse(text).value))
                  && (NoStart(byId) && NoStart(byDate) ==> r.value.0 == "$"))
  {
    if bounds.Some? && bounds.value.byDate.Some? {
      var dates := bounds.value.byDate;
      if dates.value.start.Some? && dates.value.start.value != "" { assert HasStart(dates, dates.value.start.value); }
      if dates.value.end.Some? && dates.value.end.value != "" { assert HasEnd(dates, dates.value.end.value); }
    }
  }
}
