/** The agenda, said of its items alone: which are on it, on what day, how
    marked, and in what order. */
module AgendaRules {
  import opened Wrappers
  import opened Text
  import opened MergedAgenda

  function Value(s: Option<string>): string { if s.Some? then s.value else "" }

  /** The day of a stored moment: its first ten characters. */
  function DayOf(s: string): string { s[..if |s| < 10 then |s| else 10] }

  predicate UpTo(day: string, last: string) { day == last || Less(day, last) }

  // ---- one item ----

  /** Its `when` is today or later. */
  predicate Current(item: ItemView, today: string) { item.when.Some? && UpTo(today, DayOf(item.when.value)) }

  /** The days that may place an item: that of a current `when`, and while it
      is open that of its deadline, or today once it is past. */
  function DaysFor(item: ItemView, today: string): set<string> {
    (if Current(item, today) then {DayOf(item.when.value)} else {})
    + if item.done || item.deadline == None then {}
      else if Less(item.deadline.value, today) then {today}
      else {item.deadline.value}
  }

  predicate OnAgenda(item: ItemView, today: string, horizon: string) {
    !item.binned && !item.cancelled && exists day :: day in DaysFor(item, today) && UpTo(day, horizon)
  }

  /** It goes on the first of those days. */
  predicate IsDayFor(item: ItemView, today: string, day: string) {
    day in DaysFor(item, today) && forall d :: d in DaysFor(item, today) ==> UpTo(day, d)
  }

  /** Open and past its deadline, open and due today, or neither. */
  function ToneFor(item: ItemView, today: string): Tone {
    if item.done || item.deadline == None || Less(today, item.deadline.value) then Neutral
    else if item.deadline.value == today then Warning
    else Overdue
  }

  /** Placed by its `when` if that is the day, and so on a tie. */
  function RowFor(doc: Option<nat>, item: ItemView, today: string): Row {
    var byWhen := Current(item, today) && IsDayFor(item, today, DayOf(item.when.value));
    Row(item, if byWhen then ByWhen else ByDeadline, ToneFor(item, today), doc)
  }

  /** What sorts it in its day: an overdue deadline, or the field that placed
      it. */
  function FieldOf(row: Row): string {
    if row.tone != Overdue && row.placedBy == ByWhen then Value(row.item.when) else Value(row.item.deadline)
  }

  /** Overdue first; then by that field; then the older. */
  predicate Ahead(a: Row, b: Row) {
    if (a.tone == Overdue) != (b.tone == Overdue) then a.tone == Overdue
    else if FieldOf(a) != FieldOf(b) then Less(FieldOf(a), FieldOf(b))
    else a.item.createdAt < b.item.createdAt
  }

  lemma LessOnce(a: string, b: string)
    ensures UpTo(a, b) <==> !Less(b, a)
    ensures !Less(a, a) && (Less(a, b) ==> a != b && !Less(b, a))
  {
    LessIsTotal(a, b);
    LessIsTotal(a, a);
  }

  /** The days are one or two; the first of them is the one not after the
      other. */
  lemma FirstDay(w: string, d: string, horizon: string)
    ensures UpTo(w, horizon) || UpTo(d, horizon) <==> UpTo(if Less(d, w) then d else w, horizon)
  {
    LessIsTotal(d, w);
    LessOnce(w, horizon);
    LessOnce(d, horizon);
    if Less(d, w) && Less(w, horizon) { LessIsTransitive(d, w, horizon); }
    if Less(w, d) && Less(d, horizon) { LessIsTransitive(w, d, horizon); }
  }

  /** What an entry carries of its item. */
  ghost predicate Carries(e: Entry, doc: Option<nat>, item: ItemView, today: string) {
    && e.row == RowFor(doc, item, today) && IsDayFor(item, today, e.day)
    && e.group == (if ToneFor(item, today) == Overdue then 0 else 1)
    && e.raw == FieldOf(e.row) && e.createdAt == item.createdAt
    && (ToneFor(item, today) == Overdue ==> e.day == today)
  }

  lemma WhenDayIs(item: ItemView, today: string)
    ensures WhenDay(item, today) == if Current(item, today) then Some(DayOf(item.when.value)) else None
  {
    if item.when.Some? {
      var w := item.when.value;
      assert |w| < 10 ==> w[..|w|] == w;
      LessOnce(today, DayOf(w));
    }
  }

  lemma ToneIs(item: ItemView, today: string)
    requires !item.done
    ensures ToneOf(item, today) == ToneFor(item, today)
    ensures item.deadline.Some? && ToneOf(item, today) == Overdue ==> Clamped(item.deadline.value, today) == today
  {
    LessOnce(today, today);
    if item.deadline.Some? {
      LessOnce(item.deadline.value, today);
      LessIsTotal(item.deadline.value, today);
    }
  }

  /** The earlier of two days, the first of them on a tie. */
  lemma Earlier(w: string, d: string)
    ensures var day := if Less(d, w) then d else w;
            UpTo(day, w) && UpTo(day, d) && (UpTo(w, d) <==> !Less(d, w))
  {
    LessOnce(w, d);
    LessOnce(d, w);
    LessIsTotal(w, d);
  }

  lemma PlacedDone(doc: Option<nat>, item: ItemView, today: string, horizon: string)
    requires item.done
    ensures Place(doc, item, today, horizon).Some? <==> OnAgenda(item, today, horizon)
    ensures OnAgenda(item, today, horizon) ==> Carries(Place(doc, item, today, horizon).value, doc, item, today)
  {
    WhenDayIs(item, today);
    if item.when.Some? { LessOnce(DayOf(item.when.value), horizon); }
  }

  lemma PlacedByWhen(doc: Option<nat>, item: ItemView, today: string, horizon: string)
    requires !item.done && item.deadline == None
    ensures Place(doc, item, today, horizon).Some? <==> OnAgenda(item, today, horizon)
    ensures OnAgenda(item, today, horizon) ==> Carries(Place(doc, item, today, horizon).value, doc, item, today)
  {
    WhenDayIs(item, today);
    if item.when.Some? { LessOnce(DayOf(item.when.value), horizon); }
  }

  lemma PlacedByDeadline(doc: Option<nat>, item: ItemView, today: string, horizon: string)
    requires !item.done && item.deadline.Some? && !Current(item, today)
    ensures Place(doc, item, today, horizon).Some? <==> OnAgenda(item, today, horizon)
    ensures OnAgenda(item, today, horizon) ==> Carries(Place(doc, item, today, horizon).value, doc, item, today)
  {
    WhenDayIs(item, today);
    ToneIs(item, today);
    var d := Clamped(item.deadline.value, today);
    assert DaysFor(item, today) == {d};
    LessOnce(d, horizon);
  }

  lemma PlacedByEither(doc: Option<nat>, item: ItemView, today: string, horizon: string)
    requires !item.done && item.deadline.Some? && Current(item, today)
    ensures Place(doc, item, today, horizon).Some? <==> OnAgenda(item, today, horizon)
    ensures OnAgenda(item, today, horizon) ==> Carries(Place(doc, item, today, horizon).value, doc, item, today)
  {
    WhenDayIs(item, today);
    ToneIs(item, today);
    var w, d := DayOf(item.when.value), Clamped(item.deadline.value, today);
    EitherDay(item, today, w, d);
    EitherShown(item, today, horizon, w, d);
    LessOnce(if Less(d, w) then d else w, horizon);
  }

  lemma EitherDay(item: ItemView, today: string, w: string, d: string)
    requires !item.done && item.deadline.Some? && Current(item, today)
    requires w == DayOf(item.when.value) && d == Clamped(item.deadline.value, today)
    ensures DaysFor(item, today) == {w, d} && IsDayFor(item, today, if Less(d, w) then d else w)
    ensures IsDayFor(item, today, w) <==> !Less(d, w)
  {
    assert DaysFor(item, today) == {w, d};
    Earlier(w, d);
  }

  lemma EitherShown(item: ItemView, today: string, horizon: string, w: string, d: string)
    requires DaysFor(item, today) == {w, d}
    ensures (exists day :: day in DaysFor(item, today) && UpTo(day, horizon)) <==>
            UpTo(if Less(d, w) then d else w, horizon)
  {
    FirstDay(w, d, horizon);
    assert w in DaysFor(item, today) && d in DaysFor(item, today);
  }

  /** An item is placed exactly if it is neither binned nor cancelled and one
      of its days is shown; on the first of them, marked and sorted as above. */
  lemma Placement(doc: Option<nat>, item: ItemView, today: string, horizon: string)
    ensures Place(doc, item, today, horizon).Some? <==> OnAgenda(item, today, horizon)
    ensures OnAgenda(item, today, horizon) ==> Carries(Place(doc, item, today, horizon).value, doc, item, today)
  {
    if item.done {
      PlacedDone(doc, item, today, horizon);
    } else if item.deadline == None {
      PlacedByWhen(doc, item, today, horizon);
    } else if !Current(item, today) {
      PlacedByDeadline(doc, item, today, horizon);
    } else {
      PlacedByEither(doc, item, today, horizon);
    }
  }

  // ---- the agenda ----

  /** The row of every item that is on it, in the order of the sources. */
  function RowsFor(doc: Option<nat>, items: seq<ItemView>, today: string, horizon: string): seq<Row> {
    if items == [] then []
    else
      var item := items[|items| - 1];
      RowsFor(doc, items[..|items| - 1], today, horizon)
      + if OnAgenda(item, today, horizon) then [RowFor(doc, item, today)] else []
  }

  function AllRowsFor(sources: seq<Source>, today: string, horizon: string): seq<Row> {
    if sources == [] then []
    else
      var last := sources[|sources| - 1];
      AllRowsFor(sources[..|sources| - 1], today, horizon) + RowsFor(last.doc, last.items, today, horizon)
  }

  /** Some item put it there. */
  ghost predicate Belongs(e: Entry, today: string, horizon: string) {
    OnAgenda(e.row.item, today, horizon) && Carries(e, e.row.doc, e.row.item, today)
  }

  lemma {:induction false} PlacedRows(doc: Option<nat>, items: seq<ItemView>, today: string, horizon: string)
    ensures RowsOf(PlaceAll(doc, items, today, horizon)) == RowsFor(doc, items, today, horizon)
    ensures forall e :: e in PlaceAll(doc, items, today, horizon) ==> Belongs(e, today, horizon)
  {
    if items != [] {
      var item := items[|items| - 1];
      PlacedRows(doc, items[..|items| - 1], today, horizon);
      Placement(doc, item, today, horizon);
      if OnAgenda(item, today, horizon) {
        RowsMore(PlaceAll(doc, items[..|items| - 1], today, horizon), Place(doc, item, today, horizon).value);
      }
    }
  }

  lemma {:induction false} RowsConcat(a: seq<Entry>, b: seq<Entry>)
    ensures RowsOf(a + b) == RowsOf(a) + RowsOf(b)
  {
    if b == [] {
      assert a + b == a;
    } else {
      RowsConcat(a, b[..|b| - 1]);
      assert a + b == (a + b[..|b| - 1]) + [b[|b| - 1]];
      RowsMore(a + b[..|b| - 1], b[|b| - 1]);
    }
  }

  lemma {:induction false} AllPlacedRows(sources: seq<Source>, today: string, horizon: string)
    ensures RowsOf(PlacedFrom(sources, today, horizon)) == AllRowsFor(sources, today, horizon)
    ensures forall e :: e in PlacedFrom(sources, today, horizon) ==> Belongs(e, today, horizon)
  {
    if sources != [] {
      var before, last := sources[..|sources| - 1], sources[|sources| - 1];
      AllPlacedRows(before, today, horizon);
      PlacedRows(last.doc, last.items, today, horizon);
      RowsConcat(PlacedFrom(before, today, horizon), PlaceAll(last.doc, last.items, today, horizon));
    }
  }

  /** A day's rows are a stretch of the sorted entries, all of that day. */
  ghost predicate Stretch(rows: seq<Row>, day: string, es: seq<Entry>, lo: nat) {
    && lo + |rows| <= |es|
    && forall i :: 0 <= i < |rows| ==> rows[i] == es[lo + i].row && es[lo + i].day == day
  }

  lemma {:induction false} DayIsStretch(today: string, es: seq<Entry>, d: nat) returns (lo: nat)
    requires d < |Grouped(today, es)|
    ensures var day := Grouped(today, es)[d];
            Stretch(day.rows, day.day, es, lo) && (d == |Grouped(today, es)| - 1 ==> lo + |day.rows| == |es|)
  {
    lo := 0;
    if es != [] {
      var before, e := es[..|es| - 1], es[|es| - 1];
      var rest := Grouped(today, before);
      if d < |rest| {
        lo := DayIsStretch(today, before, d);
        StretchOn(rest, before, e, d, lo);
        assert before + [e] == es;
      } else {
        lo := |before|;
      }
    }
  }

  lemma StretchOn(days: seq<Day>, before: seq<Entry>, e: Entry, d: nat, lo: nat)
    requires d < |days| && Stretch(days[d].rows, days[d].day, before, lo)
    requires d == |days| - 1 ==> lo + |days[d].rows| == |before|
    ensures var out := Pushed(days, e);
            && Stretch(out[d].rows, out[d].day, before + [e], lo)
            && (d == |out| - 1 ==> lo + |out[d].rows| == |before| + 1)
  {
    var out := Pushed(days, e);
    if d == |days| - 1 && days[d].day == e.day {
      assert out[d].rows == days[d].rows + [e.row];
    } else {
      assert out[d] == days[d];
    }
    forall i | 0 <= i < |out[d].rows|
      ensures out[d].rows[i] == (before + [e])[lo + i].row && (before + [e])[lo + i].day == out[d].day
    {
      if i < |days[d].rows| { assert days[d].rows[i] == before[lo + i].row; }
    }
  }

  /** Two rows of one day stand as the entries they come from do. */
  lemma DayOrder(a: Entry, b: Entry, today: string, horizon: string)
    requires Belongs(a, today, horizon) && Belongs(b, today, horizon) && a.day == b.day
    ensures KeyLess(b, a) <==> Ahead(b.row, a.row)
  {}

  /** The agenda: each item that is on it once, on its day, and no row before
      one it should follow. */
  lemma AgendaIs(sources: seq<Source>, today: string, horizon: string)
    ensures var out := AgendaOf(sources, today, horizon);
            && multiset(AllRows(out)) == multiset(AllRowsFor(sources, today, horizon))
            && (forall d, i :: 0 <= d < |out| && 0 <= i < |out[d].rows| ==>
                  var item := out[d].rows[i].item;
                  OnAgenda(item, today, horizon) && IsDayFor(item, today, out[d].day))
            && (forall d, i, j :: 0 <= d < |out| && 0 <= i < j < |out[d].rows| ==>
                  !Ahead(out[d].rows[j], out[d].rows[i]))
  {
    var placed := PlacedFrom(sources, today, horizon);
    var out := AgendaOf(sources, today, horizon);
    AgendaShape(sources, today, horizon);
    AllPlacedRows(sources, today, horizon);
    SortedIs(placed);
    forall d | 0 <= d < |out|
      ensures DayStands(out[d], today, horizon)
    {
      DayIs(sources, today, horizon, d);
    }
  }

  ghost predicate DayStands(day: Day, today: string, horizon: string) {
    && (forall i :: 0 <= i < |day.rows| ==>
          OnAgenda(day.rows[i].item, today, horizon) && IsDayFor(day.rows[i].item, today, day.day))
    && (forall i, j :: 0 <= i < j < |day.rows| ==> !Ahead(day.rows[j], day.rows[i]))
  }

  lemma DayIs(sources: seq<Source>, today: string, horizon: string, d: nat)
    requires d < |AgendaOf(sources, today, horizon)|
    ensures DayStands(AgendaOf(sources, today, horizon)[d], today, horizon)
  {
    var placed := PlacedFrom(sources, today, horizon);
    var es, day := Sorted(placed), AgendaOf(sources, today, horizon)[d];
    AllPlacedRows(sources, today, horizon);
    SortedIs(placed);
    var lo := DayIsStretch(today, es, d);
    StretchStands(day, es, lo, today, horizon);
  }

  lemma StretchStands(day: Day, es: seq<Entry>, lo: nat, today: string, horizon: string)
    requires Stretch(day.rows, day.day, es, lo) && InOrder(es)
    requires forall e :: e in es ==> Belongs(e, today, horizon)
    ensures DayStands(day, today, horizon)
  {
    forall i | 0 <= i < |day.rows|
      ensures Belongs(es[lo + i], today, horizon) && day.rows[i] == es[lo + i].row && es[lo + i].day == day.day
    {
      assert es[lo + i] in es;
    }
    forall i, j | 0 <= i < j < |day.rows| ensures !Ahead(day.rows[j], day.rows[i]) {
      assert Belongs(es[lo + i], today, horizon) && Belongs(es[lo + j], today, horizon);
      assert day.rows[i] == es[lo + i].row && day.rows[j] == es[lo + j].row;
      DayOrder(es[lo + i], es[lo + j], today, horizon);
    }
  }

  // ---- ties ----

  predicate Tied(a: Entry, b: Entry) {
    a.day == b.day && a.group == b.group && a.raw == b.raw && a.createdAt == b.createdAt
  }

  function TiedWith(es: seq<Entry>, e: Entry): seq<Entry> {
    if es == [] then []
    else
      var rest := TiedWith(es[..|es| - 1], e);
      if Tied(es[|es| - 1], e) then rest + [es[|es| - 1]] else rest
  }

  lemma TiedMore(es: seq<Entry>, x: Entry, e: Entry)
    ensures TiedWith(es + [x], e) == if Tied(x, e) then TiedWith(es, e) + [x] else TiedWith(es, e)
  {
    assert (es + [x])[..|es|] == es;
  }

  lemma {:induction false} TiedInsert(s: seq<Entry>, x: Entry, e: Entry)
    requires InOrder(s)
    ensures TiedWith(Insert(s, x), e) == if Tied(x, e) then TiedWith(s, e) + [x] else TiedWith(s, e)
  {
    if s == [] {
      assert [x][..0] == [];
    } else if KeyLess(x, s[|s| - 1]) {
      var before, last := s[..|s| - 1], s[|s| - 1];
      TiedInsert(before, x, e);
      TiedMore(Insert(before, x), last, e);
      KeyIrreflexive(x, x);
    } else {
      TiedMore(s, x, e);
    }
  }

  /** Entries no key tells apart stay in the order of the sources. */
  lemma {:induction false} TiesKeepOrder(es: seq<Entry>, e: Entry)
    ensures TiedWith(Sorted(es), e) == TiedWith(es, e)
  {
    if es != [] {
      TiesKeepOrder(es[..|es| - 1], e);
      SortedOrder(es[..|es| - 1]);
      TiedInsert(Sorted(es[..|es| - 1]), es[|es| - 1], e);
    }
  }
}
