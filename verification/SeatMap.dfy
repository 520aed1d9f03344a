/** Seat codes: how an event's sections become seat rows, when those rows meet the unique index, and how the seat
    map reads the rows of a section back out of the codes. */
module SeatMap {
  import opened Orders

  /** A JavaScript string is a sequence of UTF-16 code units. */
  type Unit = u: nat | u < 0x1_0000

  type Text = seq<Unit>

  datatype Section = Section(name: Text, rows: nat, seatsPerRow: nat, tier: nat)

  datatype SeatRow = SeatRow(code: Text, section: Text, tier: nat)

  /** What a template literal makes of the missing first unit of an empty name: "undefined". */
  const UNDEFINED: Text := [117, 110, 100, 101, 102, 105, 110, 101, 100]

  const LETTER_A: nat := 65

  function Initial(name: Text): Text {
    if name == [] then UNDEFINED else [name[0]]
  }

  /** `String.fromCharCode(65 + r)`, which wraps. */
  function RowUnit(r: nat): Unit {
    (LETTER_A + r) % 0x1_0000
  }

  function Digits(n: nat): Text {
    if n < 10 then [48 + n] else Digits(n / 10) + [48 + n % 10]
  }

  function Code(name: Text, r: nat, s: nat): Text {
    Initial(name) + [RowUnit(r)] + Digits(s)
  }

  function SeatAt(sec: Section, r: nat, s: nat): SeatRow {
    SeatRow(Code(sec.name, r, s), sec.name, sec.tier)
  }

  /** Row `r` of a section, up to seat `n`. */
  function RowSeats(sec: Section, r: nat, n: nat): seq<SeatRow> {
    if n == 0 then [] else RowSeats(sec, r, n - 1) + [SeatAt(sec, r, n)]
  }

  /** The first `n` rows of a section. */
  function SectionSeats(sec: Section, n: nat): seq<SeatRow> {
    if n == 0 then [] else SectionSeats(sec, n - 1) + RowSeats(sec, n - 1, sec.seatsPerRow)
  }

  function AllSeats(sections: seq<Section>): seq<SeatRow> {
    if sections == [] then []
    else
      var last := sections[|sections| - 1];
      AllSeats(sections[..|sections| - 1]) + SectionSeats(last, last.rows)
  }

  // ---- creating an event -----------------------------------------------------------------

  datatype Creation = EndsTooEarly | DuplicateCode | Created(seats: seq<SeatRow>, totalSeats: nat)

  method BuildSeatRows(sections: seq<Section>) returns (rows: seq<SeatRow>)
    ensures rows == AllSeats(sections)
    ensures forall x :: x in rows <==> Stored(sections, x)
  {
    rows := [];
    var i := 0;
    while i < |sections|
      invariant i <= |sections| && rows == AllSeats(sections[..i])
    {
      var section := sections[i];
      var r := 0;
      while r < section.rows
        invariant r <= section.rows && rows == AllSeats(sections[..i]) + SectionSeats(section, r)
      {
        var s := 1;
        while s <= section.seatsPerRow
          invariant 1 <= s <= section.seatsPerRow + 1
          invariant rows == AllSeats(sections[..i]) + SectionSeats(section, r) + RowSeats(section, r, s - 1)
        {
          SeatPushed(AllSeats(sections[..i]) + SectionSeats(section, r), section, r, s);
          rows := rows + [SeatRow(Code(section.name, r, s), section.name, section.tier)];
          s := s + 1;
        }
        RowPushed(AllSeats(sections[..i]), section, r);
        r := r + 1;
      }
      SectionPushed(sections, i);
      i := i + 1;
    }
    assert sections[..i] == sections;
    forall x ensures x in rows <==> Stored(sections, x) { StoredExactly(sections, x); }
  }

  lemma SeatPushed(front: seq<SeatRow>, sec: Section, r: nat, s: nat)
    requires s >= 1
    ensures front + RowSeats(sec, r, s - 1) + [SeatAt(sec, r, s)] == front + RowSeats(sec, r, s)
  {
  }

  lemma RowPushed(front: seq<SeatRow>, sec: Section, r: nat)
    ensures front + SectionSeats(sec, r) + RowSeats(sec, r, sec.seatsPerRow) == front + SectionSeats(sec, r + 1)
    ensures RowSeats(sec, r, 0) == []
  {
  }

  lemma SectionPushed(sections: seq<Section>, i: nat)
    requires i < |sections|
    ensures AllSeats(sections[..i]) + SectionSeats(sections[i], sections[i].rows) == AllSeats(sections[..i + 1])
  {
    assert sections[..i + 1][..i] == sections[..i];
  }

  /** The event and its seats are one insert, which the unique index refuses when a code repeats. */
  method Create(sections: seq<Section>, startsAt: int, endsAt: int) returns (c: Creation)
    ensures endsAt <= startsAt <==> c == EndsTooEarly
    ensures endsAt > startsAt ==> (c.Created? <==> UniqueCodes(AllSeats(sections)))
    ensures c.Created? ==> c.seats == AllSeats(sections) && c.totalSeats == SeatCount(sections) == |CodesOf(c.seats)|
    ensures c.Created? ==> forall x :: x in c.seats <==> Stored(sections, x)
  {
    if endsAt <= startsAt { return EndsTooEarly; }
    var rows := BuildSeatRows(sections);
    CountsSeats(sections);
    CodesCounted(rows);
    if |CodesOf(rows)| == |rows| {
      c := Created(rows, |rows|);
    } else {
      c := DuplicateCode;
    }
  }

  // ---- how many seats --------------------------------------------------------------------

  function SeatCount(sections: seq<Section>): nat {
    if sections == [] then 0
    else SeatCount(sections[..|sections| - 1]) + sections[|sections| - 1].rows * sections[|sections| - 1].seatsPerRow
  }

  lemma {:induction false} RowSeatsCount(sec: Section, r: nat, n: nat)
    ensures |RowSeats(sec, r, n)| == n
    ensures forall k :: 0 <= k < n ==> RowSeats(sec, r, n)[k] == SeatAt(sec, r, k + 1)
  {
    if n > 0 { RowSeatsCount(sec, r, n - 1); }
  }

  lemma {:induction false} SectionSeatsCount(sec: Section, n: nat)
    ensures |SectionSeats(sec, n)| == n * sec.seatsPerRow
  {
    if n > 0 {
      SectionSeatsCount(sec, n - 1);
      RowSeatsCount(sec, n - 1, sec.seatsPerRow);
      assert n * sec.seatsPerRow == (n - 1) * sec.seatsPerRow + sec.seatsPerRow;
    }
  }

  /** As many seats as rows times seats per row, summed over the sections. */
  lemma {:induction false} CountsSeats(sections: seq<Section>)
    ensures |AllSeats(sections)| == SeatCount(sections)
  {
    if sections != [] {
      CountsSeats(sections[..|sections| - 1]);
      SectionSeatsCount(sections[|sections| - 1], sections[|sections| - 1].rows);
    }
  }

  // ---- when codes repeat -----------------------------------------------------------------

  predicate UniqueCodes(seats: seq<SeatRow>) {
    forall i, j :: 0 <= i < j < |seats| ==> seats[i].code != seats[j].code
  }

  function CodesOf(seats: seq<SeatRow>): set<Text> {
    set x | x in seats :: x.code
  }

  lemma OverlapsOne(a: seq<SeatRow>, y: SeatRow)
    ensures Overlap(a, [y]) <==> y.code in CodesOf(a)
  {
    if y.code in CodesOf(a) {
      var x :| x in a && x.code == y.code;
      assert y in [y];
    }
  }

  lemma {:induction false} CodesCounted(seats: seq<SeatRow>)
    ensures |CodesOf(seats)| <= |seats|
    ensures |CodesOf(seats)| == |seats| <==> UniqueCodes(seats)
  {
    if seats != [] {
      var n := |seats| - 1;
      var front := seats[..n];
      CodesCounted(front);
      UniqueJoin(front, [seats[n]]);
      assert seats == front + [seats[n]];
      assert CodesOf(seats) == CodesOf(front) + {seats[n].code};
      OverlapsOne(front, seats[n]);
    }
  }

  function Number(digits: Text): int {
    if digits == [] then 0 else 10 * Number(digits[..|digits| - 1]) + digits[|digits| - 1] - 48
  }

  lemma {:induction false} DigitsRead(n: nat)
    ensures Number(Digits(n)) == n && |Digits(n)| >= 1
    ensures forall u :: u in Digits(n) ==> 48 <= u <= 57
  {
    if n >= 10 {
      DigitsRead(n / 10);
      assert Digits(n)[..|Digits(n)| - 1] == Digits(n / 10);
    } else {
      assert Number(Digits(n)[..0]) == 0;
    }
  }

  lemma ThirdUnit(m: Text, r: nat, s: nat)
    ensures |Code(m, r, s)| >= 3 && (m == [] <==> Code(m, r, s)[2] == 100)
  {
    DigitsRead(s);
    assert Digits(s)[0] in Digits(s);
    assert Code(m, r, s)[2] == if m == [] then UNDEFINED[2] else Digits(s)[0];
  }

  /** The third unit tells a digit from the middle of "undefined". */
  lemma InitialLength(m: Text, r: nat, s: nat, m': Text, r': nat, s': nat)
    requires Code(m, r, s) == Code(m', r', s')
    ensures |Initial(m)| == |Initial(m')|
  {
    ThirdUnit(m, r, s);
    ThirdUnit(m', r', s');
  }

  /** A code determines its initial, its row unit and its seat number. */
  lemma CodeInjective(m: Text, r: nat, s: nat, m': Text, r': nat, s': nat)
    ensures Code(m, r, s) == Code(m', r', s') <==> Initial(m) == Initial(m') && RowUnit(r) == RowUnit(r') && s == s'
  {
    if Code(m, r, s) == Code(m', r', s') {
      InitialLength(m, r, s, m', r', s');
      SameParts(Initial(m), RowUnit(r), Digits(s), Initial(m'), RowUnit(r'), Digits(s'));
      DigitsRead(s);
      DigitsRead(s');
    }
  }

  lemma SameParts(a: Text, u: Unit, d: Text, a': Text, u': Unit, d': Text)
    requires a + [u] + d == a' + [u'] + d' && |a| == |a'|
    ensures a == a' && u == u' && d == d'
  {
    var c, c' := a + [u] + d, a' + [u'] + d';
    assert a == c[..|a|] && a' == c'[..|a|];
    assert u == c[|a|] && u' == c'[|a|];
    assert d == c[|a| + 1..] && d' == c'[|a| + 1..];
  }

  predicate InRow(sec: Section, r: nat, x: SeatRow) {
    exists s :: 1 <= s <= sec.seatsPerRow && x == SeatAt(sec, r, s)
  }

  /** `x` is a seat of the first `n` rows. */
  predicate IsSeat(sec: Section, n: nat, x: SeatRow) {
    exists r :: 0 <= r < n && InRow(sec, r, x)
  }

  lemma RowMembers(sec: Section, r: nat, x: SeatRow)
    ensures x in RowSeats(sec, r, sec.seatsPerRow) <==> InRow(sec, r, x)
  {
    var row := RowSeats(sec, r, sec.seatsPerRow);
    RowSeatsCount(sec, r, sec.seatsPerRow);
    if x in row {
      var k :| 0 <= k < |row| && row[k] == x;
      assert x == SeatAt(sec, r, k + 1);
    }
    if s :| 1 <= s <= sec.seatsPerRow && x == SeatAt(sec, r, s) {
      assert row[s - 1] == x;
    }
  }

  lemma {:induction false} SectionMembers(sec: Section, n: nat, x: SeatRow)
    ensures x in SectionSeats(sec, n) <==> IsSeat(sec, n, x)
  {
    if n > 0 {
      SectionMembers(sec, n - 1, x);
      RowMembers(sec, n - 1, x);
      assert IsSeat(sec, n, x) <==> IsSeat(sec, n - 1, x) || InRow(sec, n - 1, x) by {
        if InRow(sec, n - 1, x) { assert IsSeat(sec, n, x); }
      }
    }
  }

  /** `x` is a seat of some section. */
  ghost predicate SomeSeat(sections: seq<Section>, x: SeatRow) {
    exists sec :: sec in sections && IsSeat(sec, sec.rows, x)
  }

  lemma SomeSeatJoins(sections: seq<Section>, last: Section, x: SeatRow)
    ensures SomeSeat(sections + [last], x) <==> SomeSeat(sections, x) || IsSeat(last, last.rows, x)
  {
    if sec :| sec in sections && IsSeat(sec, sec.rows, x) {
      assert sec in sections + [last];
    } else if IsSeat(last, last.rows, x) {
      assert last in sections + [last];
    }
  }

  lemma {:induction false} AllMembers(sections: seq<Section>, x: SeatRow)
    ensures x in AllSeats(sections) <==> SomeSeat(sections, x)
  {
    if sections != [] {
      var n := |sections| - 1;
      AllMembers(sections[..n], x);
      SectionMembers(sections[n], sections[n].rows, x);
      SomeSeatJoins(sections[..n], sections[n], x);
      assert sections[..n] + [sections[n]] == sections;
    }
  }

  // ---- what is stored, field by field ----------------------------------------------------

  function Pow10(k: nat): nat {
    if k == 0 then 1 else 10 * Pow10(k - 1)
  }

  /** `d` is the decimal numeral of `n`: its digits by their weights, and no zero in front. */
  predicate Decimal(d: Text, n: nat) {
    && |d| >= 1 && n < Pow10(|d|) && (|d| > 1 ==> n >= Pow10(|d| - 1))
    && forall k :: 0 <= k < |d| ==> DigitFits(d, n, k)
  }

  /** The digit of weight `10 ^ k`. */
  predicate DigitFits(d: Text, n: nat, k: nat) {
    k < |d| && Pow10(k) > 0 && d[|d| - 1 - k] == 48 + n / Pow10(k) % 10
  }

  /** `code` is the name's first unit, or "undefined" for want of one, the row's letter counted on from A, and the
      seat's number. */
  predicate CodeReads(code: Text, name: Text, r: nat, s: nat) {
    var initial: Text := if name == [] then [117, 110, 100, 101, 102, 105, 110, 101, 100] else [name[0]];
    && |code| > |initial| && code[..|initial|] == initial
    && code[|initial|] == (65 + r) % 65536 && Decimal(code[|initial| + 1..], s)
  }

  /** `x` has the name and the tier of the section, and the code of a row and a seat of it. */
  predicate StoredFor(sec: Section, r: nat, s: nat, x: SeatRow) {
    && r < sec.rows && 1 <= s <= sec.seatsPerRow
    && x.section == sec.name && x.tier == sec.tier && CodeReads(x.code, sec.name, r, s)
  }

  ghost predicate Stored(sections: seq<Section>, x: SeatRow) {
    exists sec, r: nat, s: nat :: sec in sections && StoredFor(sec, r, s, x)
  }

  lemma {:induction false} Pow10Positive(k: nat)
    ensures Pow10(k) >= 1
  {
    if k > 0 { Pow10Positive(k - 1); }
  }

  lemma {:induction false} Pow10Grows(i: nat, k: nat)
    requires i <= k
    ensures Pow10(i) <= Pow10(k)
  {
    if i < k { Pow10Grows(i, k - 1); }
  }

  lemma {:induction false} ProductGrows(a: nat, b: nat, d: nat)
    requires a <= b
    ensures a * d <= b * d
  {
    if a < b {
      ProductGrows(a, b - 1, d);
      assert b * d == (b - 1) * d + d;
    }
  }

  lemma NoLess(p: nat, q: nat, d: nat, a: nat, b: nat)
    requires p * d + a == q * d + b && a < d
    ensures p >= q
  {
    assert (p + 1) * d == p * d + d;
    if p < q { ProductGrows(p + 1, q, d); }
  }

  lemma QuotientIs(n: nat, d: nat, q: nat, rest: nat)
    requires n == q * d + rest && rest < d
    ensures n / d == q
  {
    assert n == n / d * d + n % d;
    NoLess(n / d, q, d, n % d, rest);
    NoLess(q, n / d, d, rest, n % d);
  }

  /** Dividing by ten and then by a power of ten. */
  lemma DivideOn(n: nat, p: nat)
    requires p >= 1
    ensures n / (10 * p) == n / 10 / p
  {
    var q, rest := n / 10 / p, n / 10 % p;
    assert n / 10 == q * p + rest;
    assert q * (10 * p) == 10 * (q * p);
    QuotientIs(n, 10 * p, q, 10 * rest + n % 10);
  }

  lemma NextDigitFits(front: Text, n: nat, k: nat)
    requires k == 0 || DigitFits(front, n / 10, k - 1)
    ensures DigitFits(front + [48 + n % 10], n, k)
  {
    var d: Text := front + [48 + n % 10];
    if k > 0 {
      DivideOn(n, Pow10(k - 1));
      assert d[|d| - 1 - k] == front[|front| - 1 - (k - 1)];
    }
  }

  lemma {:induction false} DigitsAreDecimal(n: nat)
    ensures Decimal(Digits(n), n)
  {
    var d := Digits(n);
    assert Pow10(0) == 1 && Pow10(1) == 10;
    if n >= 10 {
      var front := Digits(n / 10);
      DigitsAreDecimal(n / 10);
      forall k | 0 <= k < |d| ensures DigitFits(d, n, k) {
        if k > 0 { assert DigitFits(front, n / 10, k - 1); }
        NextDigitFits(front, n, k);
      }
      DecimalSize(n, |front|);
    } else {
      assert DigitFits(d, n, 0);
    }
  }

  lemma DecimalSize(n: nat, k: nat)
    requires n >= 10 && k >= 1 && n / 10 < Pow10(k) && (k > 1 ==> n / 10 >= Pow10(k - 1))
    ensures Pow10(k) <= n < Pow10(k + 1)
  {
    if k == 1 {
      assert Pow10(1) == 10 * Pow10(0) == 10;
    }
  }

  /** A number has one numeral. */
  lemma OneNumeral(a: Text, b: Text, n: nat)
    requires Decimal(a, n) && Decimal(b, n)
    ensures a == b
  {
    if |a| < |b| {
      Pow10Grows(|a|, |b| - 1);
    } else if |b| < |a| {
      Pow10Grows(|b|, |a| - 1);
    } else {
      forall i | 0 <= i < |a| ensures a[i] == b[i] {
        var k := |a| - 1 - i;
        assert DigitFits(a, n, k) && DigitFits(b, n, k);
      }
    }
  }

  lemma CodeIsRead(code: Text, name: Text, r: nat, s: nat)
    ensures CodeReads(code, name, r, s) <==> code == Code(name, r, s)
  {
    var n := |Initial(name)|;
    var whole := Code(name, r, s);
    DigitsAreDecimal(s);
    assert whole == Initial(name) + [RowUnit(r)] + Digits(s);
    assert whole[..n] == Initial(name);
    assert whole[n] == RowUnit(r);
    assert whole[n + 1..] == Digits(s);
    if CodeReads(code, name, r, s) {
      OneNumeral(code[n + 1..], Digits(s), s);
      assert code == code[..n] + [code[n]] + code[n + 1..];
    }
  }

  lemma StoredIsBuilt(sec: Section, r: nat, s: nat, x: SeatRow)
    requires r < sec.rows && 1 <= s <= sec.seatsPerRow
    ensures StoredFor(sec, r, s, x) <==> x == SeatAt(sec, r, s)
  {
    CodeIsRead(x.code, sec.name, r, s);
  }

  /** The rows that are built are just those of the sections' rows and seats, with the section's name and tier. */
  lemma StoredExactly(sections: seq<Section>, x: SeatRow)
    ensures x in AllSeats(sections) <==> Stored(sections, x)
  {
    AllMembers(sections, x);
    if x in AllSeats(sections) {
      var sec :| sec in sections && IsSeat(sec, sec.rows, x);
      var r :| 0 <= r < sec.rows && InRow(sec, r, x);
      var s :| 1 <= s <= sec.seatsPerRow && x == SeatAt(sec, r, s);
      StoredIsBuilt(sec, r, s, x);
    }
    if sec, r: nat, s: nat :| sec in sections && StoredFor(sec, r, s, x) {
      StoredIsBuilt(sec, r, s, x);
      assert InRow(sec, r, x) && IsSeat(sec, sec.rows, x);
    }
  }

  /** Seat `s` of row `r` comes after the rows before it and the seats before it. */
  function Place(sec: Section, r: nat, s: nat): int {
    r * sec.seatsPerRow + s - 1
  }

  lemma {:induction false} SectionPlace(sec: Section, n: nat, r: nat, s: nat)
    requires r < n && 1 <= s <= sec.seatsPerRow
    ensures 0 <= Place(sec, r, s) < |SectionSeats(sec, n)| == n * sec.seatsPerRow
    ensures SectionSeats(sec, n)[Place(sec, r, s)] == SeatAt(sec, r, s)
    decreases n
  {
    SectionSeatsCount(sec, n);
    SectionSeatsCount(sec, n - 1);
    RowSeatsCount(sec, n - 1, sec.seatsPerRow);
    assert n * sec.seatsPerRow == (n - 1) * sec.seatsPerRow + sec.seatsPerRow;
    if r < n - 1 {
      SectionPlace(sec, n - 1, r, s);
    } else {
      assert RowSeats(sec, r, sec.seatsPerRow)[s - 1] == SeatAt(sec, r, s);
    }
  }

  lemma {:induction false} PlaceInAll(sections: seq<Section>, i: nat, r: nat, s: nat)
    requires i < |sections| && r < sections[i].rows && 1 <= s <= sections[i].seatsPerRow
    ensures 0 <= SeatCount(sections[..i]) + Place(sections[i], r, s) < |AllSeats(sections)|
    ensures AllSeats(sections)[SeatCount(sections[..i]) + Place(sections[i], r, s)] == SeatAt(sections[i], r, s)
    decreases |sections|
  {
    var n := |sections| - 1;
    CountsSeats(sections[..n]);
    if i < n {
      PlaceInAll(sections[..n], i, r, s);
      assert sections[..n][..i] == sections[..i];
    } else {
      SectionPlace(sections[n], sections[n].rows, r, s);
    }
  }

  /** Where the row of a seat comes: after those of the sections before, of the rows before and of the seats before. */
  lemma StoredInOrder(sections: seq<Section>, i: nat, r: nat, s: nat)
    requires i < |sections| && r < sections[i].rows && 1 <= s <= sections[i].seatsPerRow
    ensures var place := SeatCount(sections[..i]) + (r * sections[i].seatsPerRow + s - 1);
      && 0 <= place < |AllSeats(sections)| && StoredFor(sections[i], r, s, AllSeats(sections)[place])
  {
    PlaceInAll(sections, i, r, s);
    StoredIsBuilt(sections[i], r, s, SeatAt(sections[i], r, s));
  }

  predicate Overlap(a: seq<SeatRow>, b: seq<SeatRow>) {
    exists x, y :: x in a && y in b && x.code == y.code
  }

  lemma OverlapRepeats(a: seq<SeatRow>, b: seq<SeatRow>)
    requires Overlap(a, b)
    ensures !UniqueCodes(a + b)
  {
    var x, y :| x in a && y in b && x.code == y.code;
    var i :| 0 <= i < |a| && a[i] == x;
    var j :| 0 <= j < |b| && b[j] == y;
    assert (a + b)[i].code == (a + b)[|a| + j].code;
  }

  lemma UniqueJoin(a: seq<SeatRow>, b: seq<SeatRow>)
    ensures UniqueCodes(a + b) <==> UniqueCodes(a) && UniqueCodes(b) && !Overlap(a, b)
  {
    var ab := a + b;
    if UniqueCodes(ab) {
      forall i, j | 0 <= i < j < |a| ensures a[i].code != a[j].code { assert ab[i].code != ab[j].code; }
      forall i, j | 0 <= i < j < |b| ensures b[i].code != b[j].code { assert ab[|a| + i].code != ab[|a| + j].code; }
    }
    if Overlap(a, b) { OverlapRepeats(a, b); }
    if UniqueCodes(a) && UniqueCodes(b) && !Overlap(a, b) {
      forall i, j | 0 <= i < j < |ab| ensures ab[i].code != ab[j].code {
        if i < |a| <= j { assert a[i] in a && b[j - |a|] in b; }
      }
    }
  }

  lemma RowUnique(sec: Section, r: nat)
    ensures UniqueCodes(RowSeats(sec, r, sec.seatsPerRow))
  {
    var row := RowSeats(sec, r, sec.seatsPerRow);
    RowSeatsCount(sec, r, sec.seatsPerRow);
    forall i, j | 0 <= i < j < |row| ensures row[i].code != row[j].code {
      CodeInjective(sec.name, r, i + 1, sec.name, r, j + 1);
    }
  }

  lemma SameCodeSameUnit(sec: Section, r: nat, x: SeatRow, sec': Section, r': nat, y: SeatRow)
    requires InRow(sec, r, x) && InRow(sec', r', y) && x.code == y.code
    ensures Initial(sec.name) == Initial(sec'.name) && RowUnit(r) == RowUnit(r')
  {
    var s :| 1 <= s <= sec.seatsPerRow && x == SeatAt(sec, r, s);
    var s' :| 1 <= s' <= sec'.seatsPerRow && y == SeatAt(sec', r', s');
    CodeInjective(sec.name, r, s, sec'.name, r', s');
  }

  lemma FirstOfRow(sec: Section, r: nat, n: nat)
    requires r < n && sec.seatsPerRow >= 1
    ensures SeatAt(sec, r, 1) in SectionSeats(sec, n) && SeatAt(sec, r, 1) in RowSeats(sec, r, sec.seatsPerRow)
  {
    RowMembers(sec, r, SeatAt(sec, r, 1));
    assert InRow(sec, r, SeatAt(sec, r, 1));
    SectionMembers(sec, n, SeatAt(sec, r, 1));
  }

  lemma LateRowOverlaps(sec: Section, r: nat, n: nat)
    requires sec.seatsPerRow >= 1 && n == r + 0x1_0000
    ensures Overlap(SectionSeats(sec, n), RowSeats(sec, n, sec.seatsPerRow))
  {
    var x, y := SeatAt(sec, r, 1), SeatAt(sec, n, 1);
    FirstOfRow(sec, r, n);
    FirstOfRow(sec, n, n + 1);
    UnitsComeRound(r, n);
    assert x.code == y.code;
  }

  /** A new row repeats a code of its section exactly when its letter has come round again. */
  lemma RowOverlap(sec: Section, n: nat)
    requires sec.seatsPerRow >= 1
    ensures Overlap(SectionSeats(sec, n), RowSeats(sec, n, sec.seatsPerRow)) <==> n >= 0x1_0000
  {
    if n >= 0x1_0000 { LateRowOverlaps(sec, n - 0x1_0000, n); }
    if x, y :| x in SectionSeats(sec, n) && y in RowSeats(sec, n, sec.seatsPerRow) && x.code == y.code {
      SectionMembers(sec, n, x);
      RowMembers(sec, n, y);
      var r :| 0 <= r < n && InRow(sec, r, x);
      SameCodeSameUnit(sec, r, x, sec, n, y);
      UnitsComeRound(r, n);
    }
  }

  lemma UnitsComeRound(r: nat, n: nat)
    requires r < n
    ensures RowUnit(r) == RowUnit(n) ==> n >= 0x1_0000
    ensures n == r + 0x1_0000 ==> RowUnit(r) == RowUnit(n)
  {
  }

  lemma JoinIsUnique(before: seq<SeatRow>, row: seq<SeatRow>, late: bool)
    requires UniqueCodes(row) && (Overlap(before, row) <==> late)
    ensures UniqueCodes(before + row) <==> UniqueCodes(before) && !late
  {
    UniqueJoin(before, row);
  }

  lemma RowJoins(sec: Section, n: nat)
    requires sec.seatsPerRow >= 1 && n > 0
    ensures UniqueCodes(SectionSeats(sec, n)) <==> UniqueCodes(SectionSeats(sec, n - 1)) && n <= 0x1_0000
  {
    RowUnique(sec, n - 1);
    RowOverlap(sec, n - 1);
    JoinIsUnique(SectionSeats(sec, n - 1), RowSeats(sec, n - 1, sec.seatsPerRow), n - 1 >= 0x1_0000);
  }

  lemma {:induction false} SectionUnique(sec: Section, n: nat)
    requires sec.seatsPerRow >= 1
    ensures UniqueCodes(SectionSeats(sec, n)) <==> n <= 0x1_0000
  {
    if n > 0 {
      SectionUnique(sec, n - 1);
      RowJoins(sec, n);
    }
  }

  predicate SharesInitial(sections: seq<Section>, name: Text) {
    exists i :: 0 <= i < |sections| && Initial(sections[i].name) == Initial(name)
  }

  lemma SectionOverlap(sections: seq<Section>, sec: Section)
    requires sec.rows >= 1 && sec.seatsPerRow >= 1
    requires forall x :: x in sections ==> x.rows >= 1 && x.seatsPerRow >= 1
    ensures Overlap(AllSeats(sections), SectionSeats(sec, sec.rows)) <==> SharesInitial(sections, sec.name)
  {
    if i :| 0 <= i < |sections| && Initial(sections[i].name) == Initial(sec.name) {
      var x, y := SeatAt(sections[i], 0, 1), SeatAt(sec, 0, 1);
      FirstOfRow(sections[i], 0, sections[i].rows);
      FirstOfRow(sec, 0, sec.rows);
      SectionMembers(sections[i], sections[i].rows, x);
      AllMembers(sections, x);
      assert x.code == y.code;
    }
    if x, y :| x in AllSeats(sections) && y in SectionSeats(sec, sec.rows) && x.code == y.code {
      AllMembers(sections, x);
      SectionMembers(sec, sec.rows, y);
      var other :| other in sections && IsSeat(other, other.rows, x);
      var r :| 0 <= r < other.rows && InRow(other, r, x);
      var r' :| 0 <= r' < sec.rows && InRow(sec, r', y);
      SameCodeSameUnit(other, r, x, sec, r', y);
    }
  }

  predicate DistinctInitials(sections: seq<Section>) {
    forall i, j :: 0 <= i < j < |sections| ==> Initial(sections[i].name) != Initial(sections[j].name)
  }

  lemma InitialsJoin(sections: seq<Section>, sec: Section)
    ensures DistinctInitials(sections + [sec]) <==> DistinctInitials(sections) && !SharesInitial(sections, sec.name)
  {
    var all := sections + [sec];
    assert forall i :: 0 <= i < |sections| ==> all[i] == sections[i];
    if i :| 0 <= i < |sections| && Initial(sections[i].name) == Initial(sec.name) {
      assert Initial(all[i].name) == Initial(all[|sections|].name);
    }
  }

  /** The codes of an event meet the unique index exactly when no two sections share an initial and no section has more
      rows than there are code units.  Every section has a row and a seat. */
  lemma {:induction false} CodesUniqueExactly(sections: seq<Section>)
    requires forall x :: x in sections ==> x.rows >= 1 && x.seatsPerRow >= 1
    ensures UniqueCodes(AllSeats(sections)) <==>
      DistinctInitials(sections) && forall x :: x in sections ==> x.rows <= 0x1_0000
  {
    if sections != [] {
      var front, last := sections[..|sections| - 1], sections[|sections| - 1];
      assert sections == front + [last];
      CodesUniqueExactly(front);
      SectionUnique(last, last.rows);
      SectionOverlap(front, last);
      InitialsJoin(front, last);
      UniqueJoin(AllSeats(front), SectionSeats(last, last.rows));
    }
  }

  // ---- reading the row back --------------------------------------------------------------

  /** What `.` does not match. */
  predicate LineTerminator(u: Unit) {
    u == 10 || u == 13 || u == 0x2028 || u == 0x2029
  }

  predicate Upper(u: Unit) {
    65 <= u <= 90
  }

  function UpperPrefix(t: Text): Text {
    if t == [] || !Upper(t[0]) then [] else [t[0]] + UpperPrefix(t[1..])
  }

  /** `replace(/^./, '')`. */
  function DropFirst(t: Text): Text {
    if t == [] || LineTerminator(t[0]) then t else t[1..]
  }

  const QUESTION: Text := [63]

  /** `match(/^[A-Z]+/)?.[0] ?? '?'` on what is left. */
  function RowLetterOf(code: Text): Text {
    var upper := UpperPrefix(DropFirst(code));
    if upper == [] then QUESTION else upper
  }

  /** The section's initial is one unit that `.` matches. */
  predicate Readable(name: Text) {
    name != [] && !LineTerminator(name[0])
  }

  /** The seat map reads a row's own letter exactly when the section's name is readable and the row is one of the 26
      whose unit is a capital; and, by accident, for the row whose unit is the question mark it falls back on. */
  lemma RowLetterRecovered(name: Text, r: nat, s: nat)
    ensures RowLetterOf(Code(name, r, s)) == [RowUnit(r)] <==>
      (Readable(name) && r % 0x1_0000 < 26) || r % 0x1_0000 == 0xFFFE
  {
    var c := Code(name, r, s);
    DigitsRead(s);
    var rest := DropFirst(c);
    assert Upper(RowUnit(r)) <==> r % 0x1_0000 < 26;
    assert RowUnit(r) == 63 <==> r % 0x1_0000 == 0xFFFE;
    if name == [] {
      assert rest[0] == 110;
    } else if LineTerminator(name[0]) {
      assert rest[0] == name[0];
    } else {
      assert rest == [RowUnit(r)] + Digits(s);
      assert rest[1..] == Digits(s);
      assert Digits(s)[0] in Digits(s) && !Upper(Digits(s)[0]);
      assert UpperPrefix(rest[1..]) == [];
      assert UpperPrefix(rest) == if Upper(RowUnit(r)) then [RowUnit(r)] else [];
    }
  }

  // ---- grouping --------------------------------------------------------------------------

  /** The seats shown under a section and a row letter, in the order given. */
  function Shown(seats: seq<SeatRow>, section: Text, letter: Text): seq<SeatRow> {
    if seats == [] then []
    else
      var front, last := Shown(seats[..|seats| - 1], section, letter), seats[|seats| - 1];
      if last.section == section && RowLetterOf(last.code) == letter then front + [last] else front
  }

  /** A JavaScript `Map`: its keys in the order in which they were first set. */
  datatype Ordered<V> = Ordered(keys: seq<Text>, at: map<Text, V>)

  function Put<V>(m: Ordered<V>, k: Text, v: V): Ordered<V> {
    Ordered(if k in m.at then m.keys else m.keys + [k], m.at[k := v])
  }

  type Rows = Ordered<seq<SeatRow>>

  type Grouping = Ordered<Rows>

  function At(g: Grouping, section: Text, letter: Text): seq<SeatRow> {
    if section in g.at && letter in g.at[section].at then g.at[section].at[letter] else []
  }

  function FirstSeen(keys: seq<Text>, k: Text): seq<Text> {
    if k in keys then keys else keys + [k]
  }

  /** The sections, and the row letters of a section, each where it first occurs. */
  function SectionOrder(seats: seq<SeatRow>): seq<Text> {
    if seats == [] then [] else FirstSeen(SectionOrder(seats[..|seats| - 1]), seats[|seats| - 1].section)
  }

  function LetterOrder(seats: seq<SeatRow>, section: Text): seq<Text> {
    if seats == [] then []
    else
      var front, last := LetterOrder(seats[..|seats| - 1], section), seats[|seats| - 1];
      if last.section == section then FirstSeen(front, RowLetterOf(last.code)) else front
  }

  ghost predicate KeysOf<V>(m: Ordered<V>, keys: seq<Text>) {
    m.keys == keys && forall k :: k in m.at <==> k in keys
  }

  /** Every group is what `Shown` says, none is empty, and sections and letters come in the order of the seats. */
  ghost predicate Groups(g: Grouping, seats: seq<SeatRow>) {
    Contents(g, seats) && NoneEmpty(g) && InOrder(g, seats)
  }

  ghost predicate Contents(g: Grouping, seats: seq<SeatRow>) {
    forall section, letter :: At(g, section, letter) == Shown(seats, section, letter)
  }

  ghost predicate NoneEmpty(g: Grouping) {
    forall section, letter :: section in g.at && letter in g.at[section].at ==> At(g, section, letter) != []
  }

  ghost predicate InOrder(g: Grouping, seats: seq<SeatRow>) {
    && KeysOf(g, SectionOrder(seats))
    && (forall section :: section in g.at ==> KeysOf(g.at[section], LetterOrder(seats, section)))
    && (forall section :: section !in g.at ==> LetterOrder(seats, section) == [])
  }

  function RowsOf(g: Grouping, section: Text): Rows {
    if section in g.at then g.at[section] else Ordered([], map[])
  }

  /** One more seat at the end of its group. */
  function Pushed(g: Grouping, seat: SeatRow, letter: Text): Grouping {
    Put(g, seat.section, Put(RowsOf(g, seat.section), letter, At(g, seat.section, letter) + [seat]))
  }

  /** The seats pushed one after the other. */
  function AllPushed(seats: seq<SeatRow>): Grouping {
    if seats == [] then Ordered([], map[])
    else
      var seat := seats[|seats| - 1];
      Pushed(AllPushed(seats[..|seats| - 1]), seat, RowLetterOf(seat.code))
  }

  method GroupSeats(seats: seq<SeatRow>) returns (grouped: Grouping)
    ensures Groups(grouped, seats)
  {
    grouped := Ordered([], map[]);
    for i := 0 to |seats|
      invariant grouped == AllPushed(seats[..i])
    {
      assert seats[..i + 1][..i] == seats[..i];
      grouped := PushSeat(grouped, seats[i]);
    }
    assert seats[..|seats|] == seats;
    PushedGroups(seats);
  }

  method PushSeat(g: Grouping, seat: SeatRow) returns (grouped: Grouping)
    ensures grouped == Pushed(g, seat, RowLetterOf(seat.code))
  {
    grouped := g;
    if seat.section !in grouped.at { grouped := Put(grouped, seat.section, Ordered([], map[])); }
    var rowLetter := RowLetterOf(seat.code);
    var sectionRows := grouped.at[seat.section];
    if rowLetter !in sectionRows.at { sectionRows := Put(sectionRows, rowLetter, []); }
    sectionRows := Put(sectionRows, rowLetter, sectionRows.at[rowLetter] + [seat]);
    grouped := Put(grouped, seat.section, sectionRows);
    assert sectionRows == Put(RowsOf(g, seat.section), rowLetter, At(g, seat.section, rowLetter) + [seat]);
    assert grouped.at == g.at[seat.section := sectionRows];
  }

  lemma AtPushed(g: Grouping, seat: SeatRow, pushed: Text, section: Text, letter: Text)
    ensures At(Pushed(g, seat, pushed), section, letter) ==
      if section == seat.section && letter == pushed then At(g, section, letter) + [seat] else At(g, section, letter)
  {
  }

  lemma ContentsOneMore(g: Grouping, seats: seq<SeatRow>, seat: SeatRow)
    requires Contents(g, seats)
    ensures Contents(Pushed(g, seat, RowLetterOf(seat.code)), seats + [seat])
  {
    var all := seats + [seat];
    assert all[..|seats|] == seats;
    var after := Pushed(g, seat, RowLetterOf(seat.code));
    forall section, letter ensures At(after, section, letter) == Shown(all, section, letter) {
      AtPushed(g, seat, RowLetterOf(seat.code), section, letter);
      assert At(g, section, letter) == Shown(seats, section, letter);
    }
  }

  lemma NoneEmptyOneMore(g: Grouping, seat: SeatRow, letter: Text)
    requires NoneEmpty(g)
    ensures NoneEmpty(Pushed(g, seat, letter))
  {
    var after := Pushed(g, seat, letter);
    forall section, l | section in after.at && l in after.at[section].at ensures At(after, section, l) != [] {
      AtPushed(g, seat, letter, section, l);
    }
  }

  lemma NothingGrouped()
    ensures Groups(Ordered([], map[]), [])
  {
  }

  lemma GroupsOneMore(g: Grouping, seats: seq<SeatRow>, seat: SeatRow)
    requires Groups(g, seats)
    ensures Groups(Pushed(g, seat, RowLetterOf(seat.code)), seats + [seat])
  {
    ContentsOneMore(g, seats, seat);
    NoneEmptyOneMore(g, seat, RowLetterOf(seat.code));
    OrderOneMore(g, seats, seat);
  }

  lemma {:induction false} PushedGroups(seats: seq<SeatRow>)
    ensures Groups(AllPushed(seats), seats)
  {
    if seats == [] {
      NothingGrouped();
    } else {
      var n := |seats| - 1;
      assert seats[..n] + [seats[n]] == seats;
      PushedGroups(seats[..n]);
      GroupsOneMore(AllPushed(seats[..n]), seats[..n], seats[n]);
    }
  }

  lemma PutKeys<V>(m: Ordered<V>, keys: seq<Text>, k: Text, v: V)
    requires KeysOf(m, keys)
    ensures KeysOf(Put(m, k, v), FirstSeen(keys, k))
  {
  }

  lemma OrderOneMore(g: Grouping, seats: seq<SeatRow>, seat: SeatRow)
    requires InOrder(g, seats)
    ensures InOrder(Pushed(g, seat, RowLetterOf(seat.code)), seats + [seat])
  {
    var all, letter := seats + [seat], RowLetterOf(seat.code);
    var rows := Put(RowsOf(g, seat.section), letter, At(g, seat.section, letter) + [seat]);
    assert all[..|seats|] == seats;
    assert KeysOf(RowsOf(g, seat.section), LetterOrder(seats, seat.section));
    PutKeys(RowsOf(g, seat.section), LetterOrder(seats, seat.section), letter, At(g, seat.section, letter) + [seat]);
    PutKeys(g, SectionOrder(seats), seat.section, rows);
  }

  // ---- the order of sections, rows and seats ---------------------------------------------

  function Sections(seats: seq<SeatRow>): seq<Text> {
    seq(|seats|, i requires 0 <= i < |seats| => seats[i].section)
  }

  /** The row letters of the section's seats, one for each. */
  function Letters(seats: seq<SeatRow>, section: Text): seq<Text> {
    if seats == [] then []
    else
      var front, last := Letters(seats[..|seats| - 1], section), seats[|seats| - 1];
      if last.section == section then front + [RowLetterOf(last.code)] else front
  }

  lemma SeenMore(keys: seq<Text>, labels: seq<Text>, k: Text)
    requires FirstsOf(keys, labels)
    ensures FirstsOf(FirstSeen(keys, k), labels + [k])
  {
    OrderMore(keys, labels, k, FirstSeen(keys, k));
  }

  /** The sections come in the order in which the seats first name them, and the rows of a section likewise. */
  lemma {:induction false} KeysInOrder(seats: seq<SeatRow>, section: Text)
    ensures FirstsOf(SectionOrder(seats), Sections(seats))
    ensures FirstsOf(LetterOrder(seats, section), Letters(seats, section))
  {
    if seats != [] {
      var n := |seats| - 1;
      KeysInOrder(seats[..n], section);
      assert Sections(seats) == Sections(seats[..n]) + [seats[n].section];
      SeenMore(SectionOrder(seats[..n]), Sections(seats[..n]), seats[n].section);
      if seats[n].section == section {
        SeenMore(LetterOrder(seats[..n], section), Letters(seats[..n], section), RowLetterOf(seats[n].code));
      }
    }
  }

  /** Seat number `i` goes under this section and letter. */
  predicate GoesUnder(seats: seq<SeatRow>, i: nat, section: Text, letter: Text) {
    i < |seats| && seats[i].section == section && RowLetterOf(seats[i].code) == letter
  }

  /** `shown` are the seats at these places: all that go under the section and the letter, in the order given. */
  ghost predicate ShownAt(seats: seq<SeatRow>, section: Text, letter: Text, shown: seq<SeatRow>, places: seq<nat>) {
    && |places| == |shown|
    && (forall k :: 0 <= k < |places| ==> GoesUnder(seats, places[k], section, letter) && shown[k] == seats[places[k]])
    && (forall k, l :: 0 <= k < l < |places| ==> places[k] < places[l])
    && (forall i: nat :: GoesUnder(seats, i, section, letter) ==> i in places)
  }

  lemma ShownOneMore(seats: seq<SeatRow>, x: SeatRow, section: Text, letter: Text, shown: seq<SeatRow>,
                     places: seq<nat>)
    requires ShownAt(seats, section, letter, shown, places)
    ensures var n := |seats|;
      if GoesUnder(seats + [x], n, section, letter)
        then ShownAt(seats + [x], section, letter, shown + [x], places + [n])
      else ShownAt(seats + [x], section, letter, shown, places)
  {
    var all := seats + [x];
    forall i: nat | i < |seats| ensures GoesUnder(all, i, section, letter) <==> GoesUnder(seats, i, section, letter) {
      assert all[i] == seats[i];
    }
  }

  lemma {:induction false} ShownInOrder(seats: seq<SeatRow>, section: Text, letter: Text) returns (places: seq<nat>)
    ensures ShownAt(seats, section, letter, Shown(seats, section, letter), places)
  {
    places := [];
    if seats != [] {
      var n := |seats| - 1;
      places := ShownInOrder(seats[..n], section, letter);
      ShownOneMore(seats[..n], seats[n], section, letter, Shown(seats[..n], section, letter), places);
      assert seats == seats[..n] + [seats[n]];
      if GoesUnder(seats, n, section, letter) { places := places + [n]; }
    }
  }

  /** A seat is in the group of its own section and letter as often as it was given, and in no other. */
  lemma {:induction false} ShownOnce(seats: seq<SeatRow>, section: Text, letter: Text, x: SeatRow)
    ensures multiset(Shown(seats, section, letter))[x] ==
      if x.section == section && RowLetterOf(x.code) == letter then multiset(seats)[x] else 0
  {
    if seats != [] {
      var n := |seats| - 1;
      ShownOnce(seats[..n], section, letter, x);
      assert seats == seats[..n] + [seats[n]];
    }
  }

  // ---- the map shows the rows that were built --------------------------------------------

  lemma {:induction false} EachOnce(seats: seq<SeatRow>, x: SeatRow)
    requires UniqueCodes(seats)
    ensures multiset(seats)[x] == if x in seats then 1 else 0
  {
    if seats != [] {
      var n := |seats| - 1;
      EachOnce(seats[..n], x);
      assert seats == seats[..n] + [seats[n]];
      UniqueJoin(seats[..n], [seats[n]]);
      OverlapsOne(seats[..n], seats[n]);
    }
  }

  /** A seat of the event is shown in row `r` of section `i` exactly when it was built there. */
  lemma ShownWhereBuilt(sections: seq<Section>, i: nat, r: nat, x: SeatRow)
    requires DistinctInitials(sections) && i < |sections| && r < sections[i].rows
    requires forall sec :: sec in sections ==> Readable(sec.name) && sec.rows <= 26
    ensures x in RowSeats(sections[i], r, sections[i].seatsPerRow) <==>
      x in AllSeats(sections) && x.section == sections[i].name && RowLetterOf(x.code) == [RowUnit(r)]
  {
    var sec := sections[i];
    if x in RowSeats(sec, r, sec.seatsPerRow) {
      BuiltIsShown(sections, i, r, x);
    }
    if x in AllSeats(sections) && x.section == sec.name && RowLetterOf(x.code) == [RowUnit(r)] {
      ShownIsBuilt(sections, i, r, x);
    }
  }

  lemma LetterTellsRow(sec: Section, q: nat, r: nat, x: SeatRow)
    requires InRow(sec, q, x) && Readable(sec.name) && q < 26 && r < 26
    ensures RowLetterOf(x.code) == [RowUnit(r)] <==> q == r
    ensures x.section == sec.name
  {
    var s :| 1 <= s <= sec.seatsPerRow && x == SeatAt(sec, q, s);
    RowLetterRecovered(sec.name, q, s);
  }

  lemma BuiltIsShown(sections: seq<Section>, i: nat, r: nat, x: SeatRow)
    requires i < |sections| && r < sections[i].rows && Readable(sections[i].name) && r < 26
    requires x in RowSeats(sections[i], r, sections[i].seatsPerRow)
    ensures x in AllSeats(sections) && x.section == sections[i].name && RowLetterOf(x.code) == [RowUnit(r)]
  {
    RowMembers(sections[i], r, x);
    assert IsSeat(sections[i], sections[i].rows, x);
    AllMembers(sections, x);
    LetterTellsRow(sections[i], r, r, x);
  }

  lemma ShownIsBuilt(sections: seq<Section>, i: nat, r: nat, x: SeatRow)
    requires DistinctInitials(sections) && i < |sections| && r < 26 && Readable(sections[i].name)
    requires forall sec :: sec in sections ==> sec.rows <= 26
    requires x in AllSeats(sections) && x.section == sections[i].name && RowLetterOf(x.code) == [RowUnit(r)]
    ensures x in RowSeats(sections[i], r, sections[i].seatsPerRow)
  {
    AllMembers(sections, x);
    var sec :| sec in sections && IsSeat(sec, sec.rows, x);
    var q :| 0 <= q < sec.rows && InRow(sec, q, x);
    var j :| 0 <= j < |sections| && sections[j] == sec;
    assert x.section == sec.name;
    assert Initial(sections[j].name) == Initial(sections[i].name);
    assert j == i;
    LetterTellsRow(sections[i], q, r, x);
    RowMembers(sections[i], r, x);
  }

  /** In whatever order the seats of a created event come back, the seat map shows under each section and row letter
      just the seats of that row. */
  lemma {:induction false} RowsShownAsBuilt(sections: seq<Section>, seats: seq<SeatRow>, i: nat, r: nat)
    requires DistinctInitials(sections) && i < |sections| && r < sections[i].rows
    requires forall x :: x in sections ==> Readable(x.name) && 1 <= x.rows <= 26 && x.seatsPerRow >= 1
    requires multiset(seats) == multiset(AllSeats(sections))
    ensures multiset(Shown(seats, sections[i].name, [RowUnit(r)]))
      == multiset(RowSeats(sections[i], r, sections[i].seatsPerRow))
  {
    var sec := sections[i];
    var row := RowSeats(sec, r, sec.seatsPerRow);
    var shown := Shown(seats, sec.name, [RowUnit(r)]);
    CodesUniqueExactly(sections);
    RowUnique(sec, r);
    forall x ensures multiset(shown)[x] == multiset(row)[x] {
      ShownOnce(seats, sec.name, [RowUnit(r)], x);
      ShownWhereBuilt(sections, i, r, x);
      EachOnce(AllSeats(sections), x);
      EachOnce(row, x);
    }
  }
}
