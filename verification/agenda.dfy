/** The merged agenda: dated items of several workspaces, by day. */
module MergedAgenda {
  import opened Wrappers
  import opened Text

  datatype Tone = Neutral | Warning | Overdue
  datatype PlacedBy = ByWhen | ByDeadline

  datatype ItemView = ItemView(
    id: string, when: Option<string>, deadline: Option<string>, createdAt: int,
    done: bool, cancelled: bool, binned: bool, event: bool)

  /** `doc` tags a merged row with its workspace. */
  datatype Row = Row(item: ItemView, placedBy: PlacedBy, tone: Tone, doc: Option<nat>)
  datatype Day = Day(day: string, rows: seq<Row>)
  datatype Source = Source(doc: Option<nat>, items: seq<ItemView>)

  /** A row with its sort key. */
  datatype Entry = Entry(day: string, group: nat, raw: string, createdAt: int, row: Row)

  // ---- placement ----

  function Prefix(s: string, n: nat): string { if |s| < n then s else s[..n] }

  /** The `when` day, unless it is past. */
  function WhenDay(item: ItemView, today: string): Option<string> {
    if item.when.Some? && !Less(Prefix(item.when.value, 10), today) then Some(Prefix(item.when.value, 10)) else None
  }

  function ToneOf(item: ItemView, today: string): Tone {
    if item.deadline.Some? && Less(item.deadline.value, today) then Overdue
    else if item.deadline == Some(today) then Warning
    else Neutral
  }

  /** Where an item goes, if anywhere. */
  function Place(doc: Option<nat>, item: ItemView, today: string, horizon: string): Option<Entry> {
    var w := WhenDay(item, today);
    if item.binned || item.cancelled || (w == None && item.deadline == None) then None
    else if item.done then
      if w == None || Less(horizon, w.value) then None
      else Some(Entry(w.value, 1, item.when.value, item.createdAt, Row(item, ByWhen, Neutral, doc)))
    else
      var byDeadline := item.deadline.Some? && (w == None || Less(Clamped(item.deadline.value, today), w.value));
      var day := if byDeadline then Clamped(item.deadline.value, today) else w.value;
      var raw := if byDeadline then item.deadline.value else item.when.value;
      var tone := ToneOf(item, today);
      if Less(horizon, day) then None
      else
        Some(Entry(day, if tone == Overdue then 0 else 1, if tone == Overdue then item.deadline.value else raw,
                   item.createdAt, Row(item, if byDeadline then ByDeadline else ByWhen, tone, doc)))
  }

  function Clamped(deadline: string, today: string): string { if Less(deadline, today) then today else deadline }

  /** Placed on a day shown, in its source's name, and on the earlier of the
      two days that place it. */
  lemma PlacedWithin(doc: Option<nat>, item: ItemView, today: string, horizon: string)
    requires Place(doc, item, today, horizon).Some?
    ensures var e := Place(doc, item, today, horizon).value;
            && !Less(e.day, today) && !Less(horizon, e.day)
            && e.row.item == item && e.row.doc == doc && e.createdAt == item.createdAt
            && (!item.done && item.deadline.Some? ==> !Less(Clamped(item.deadline.value, today), e.day))
            && (WhenDay(item, today).Some? ==> !Less(WhenDay(item, today).value, e.day))
            && (Some(e.day) == WhenDay(item, today)
                || (item.deadline.Some? && e.day == Clamped(item.deadline.value, today)))
  {
    LessIsTotal(today, today);
    if item.deadline.Some? {
      LessIsTotal(item.deadline.value, today);
      LessIsTotal(Clamped(item.deadline.value, today), Clamped(item.deadline.value, today));
      if WhenDay(item, today).Some? {
        LessIsTotal(Clamped(item.deadline.value, today), WhenDay(item, today).value);
      }
    }
    if WhenDay(item, today).Some? {
      LessIsTotal(WhenDay(item, today).value, WhenDay(item, today).value);
    }
  }

  function PlaceAll(doc: Option<nat>, items: seq<ItemView>, today: string, horizon: string): seq<Entry> {
    if items == [] then []
    else
      var rest := PlaceAll(doc, items[..|items| - 1], today, horizon);
      var e := Place(doc, items[|items| - 1], today, horizon);
      if e == None then rest else rest + [e.value]
  }

  function PlacedFrom(sources: seq<Source>, today: string, horizon: string): seq<Entry> {
    if sources == [] then []
    else
      var last := sources[|sources| - 1];
      PlacedFrom(sources[..|sources| - 1], today, horizon) + PlaceAll(last.doc, last.items, today, horizon)
  }

  // ---- order ----

  /** Day, then the overdue fold, then the placing field, then age. */
  predicate KeyLess(a: Entry, b: Entry) {
    if a.day != b.day then Less(a.day, b.day)
    else if a.group != b.group then a.group < b.group
    else if a.raw != b.raw then Less(a.raw, b.raw)
    else a.createdAt < b.createdAt
  }

  /** Insertion past everything not greater: equal keys keep their order. */
  function Insert(s: seq<Entry>, e: Entry): seq<Entry> {
    if s == [] then [e]
    else if KeyLess(e, s[|s| - 1]) then Insert(s[..|s| - 1], e) + [s[|s| - 1]]
    else s + [e]
  }

  /** A stable sort. */
  function Sorted(es: seq<Entry>): seq<Entry> {
    if es == [] then [] else Insert(Sorted(es[..|es| - 1]), es[|es| - 1])
  }

  ghost predicate InOrder(s: seq<Entry>) {
    forall i, j :: 0 <= i < j < |s| ==> !KeyLess(s[j], s[i])
  }

  lemma KeyBelow(a: Entry, b: Entry, c: Entry)
    requires KeyLess(a, b) && !KeyLess(c, b)
    ensures KeyLess(a, c)
  {
    LessIsTotal(b.day, c.day);
    LessIsTotal(b.raw, c.raw);
    LessIsTotal(a.day, c.day);
    LessIsTotal(a.raw, c.raw);
    if Less(a.day, b.day) && Less(b.day, c.day) { LessIsTransitive(a.day, b.day, c.day); }
    if Less(a.raw, b.raw) && Less(b.raw, c.raw) { LessIsTransitive(a.raw, b.raw, c.raw); }
  }

  lemma KeyIrreflexive(a: Entry, b: Entry)
    ensures !KeyLess(a, a) && !(KeyLess(a, b) && KeyLess(b, a))
  {
    LessIsTotal(a.day, b.day);
    LessIsTotal(a.raw, b.raw);
  }

  lemma {:induction false} InsertBag(s: seq<Entry>, e: Entry)
    ensures multiset(Insert(s, e)) == multiset(s) + multiset{e}
  {
    if s != [] {
      assert s == s[..|s| - 1] + [s[|s| - 1]];
      InsertBag(s[..|s| - 1], e);
    }
  }

  lemma InsertIn(s: seq<Entry>, e: Entry)
    ensures forall x :: x in Insert(s, e) <==> x in s || x == e
  {
    InsertBag(s, e);
    forall x ensures x in Insert(s, e) <==> x in s || x == e {
      assert x in Insert(s, e) <==> x in multiset(Insert(s, e));
      assert x in s <==> x in multiset(s);
    }
  }

  lemma {:induction false} InsertKeeps(s: seq<Entry>, e: Entry)
    requires InOrder(s)
    ensures InOrder(Insert(s, e))
  {
    if s != [] {
      var before, last := s[..|s| - 1], s[|s| - 1];
      if KeyLess(e, last) {
        InsertKeeps(before, e);
        InsertIn(before, e);
        forall x | x in Insert(before, e) ensures !KeyLess(last, x) {
          KeyIrreflexive(e, last);
          if x in before {
            var i :| 0 <= i < |before| && before[i] == x;
            assert s[i] == x;
          }
        }
      } else {
        forall i | 0 <= i < |s| ensures !KeyLess(e, s[i]) {
          if KeyLess(e, s[i]) && i < |s| - 1 { KeyBelow(e, s[i], last); }
        }
      }
    }
  }

  lemma {:induction false} SortedOrder(es: seq<Entry>)
    ensures InOrder(Sorted(es))
  {
    if es != [] {
      SortedOrder(es[..|es| - 1]);
      InsertKeeps(Sorted(es[..|es| - 1]), es[|es| - 1]);
    }
  }

  lemma {:induction false} SortedBag(es: seq<Entry>)
    ensures multiset(Sorted(es)) == multiset(es)
  {
    if es != [] {
      var before, last := es[..|es| - 1], es[|es| - 1];
      SortedBag(before);
      InsertBag(Sorted(before), last);
      assert es == before + [last];
    }
  }

  /** The sort orders its input and keeps it. */
  lemma SortedIs(es: seq<Entry>)
    ensures InOrder(Sorted(es)) && multiset(Sorted(es)) == multiset(es)
    ensures forall x :: x in Sorted(es) <==> x in es
  {
    SortedOrder(es);
    SortedBag(es);
    forall x ensures x in Sorted(es) <==> x in es {
      assert x in Sorted(es) <==> x in multiset(Sorted(es));
      assert x in es <==> x in multiset(es);
    }
  }

  // ---- one workspace's rows ----

  function Only(es: seq<Entry>, doc: Option<nat>): seq<Entry> {
    if es == [] then []
    else
      var rest := Only(es[..|es| - 1], doc);
      if es[|es| - 1].row.doc == doc then rest + [es[|es| - 1]] else rest
  }

  lemma OnlyMore(es: seq<Entry>, e: Entry, doc: Option<nat>)
    ensures Only(es + [e], doc) == if e.row.doc == doc then Only(es, doc) + [e] else Only(es, doc)
  {
    assert (es + [e])[..|es|] == es;
  }

  lemma {:induction false} OnlyIn(es: seq<Entry>, doc: Option<nat>)
    ensures forall x :: x in Only(es, doc) ==> x in es
  {
    if es != [] {
      OnlyIn(es[..|es| - 1], doc);
    }
  }

  lemma {:induction false} OnlyConcat(a: seq<Entry>, b: seq<Entry>, doc: Option<nat>)
    ensures Only(a + b, doc) == Only(a, doc) + Only(b, doc)
  {
    if b == [] {
      assert a + b == a;
    } else {
      var before, last := b[..|b| - 1], b[|b| - 1];
      OnlyConcat(a, before, doc);
      assert a + b == (a + before) + [last];
      OnlyMore(a + before, last, doc);
    }
  }

  lemma {:induction false} OnlyInsert(s: seq<Entry>, e: Entry, doc: Option<nat>)
    requires InOrder(s)
    ensures Only(Insert(s, e), doc) == if e.row.doc == doc then Insert(Only(s, doc), e) else Only(s, doc)
  {
    if s == [] {
      assert [e][..0] == [];
    } else {
      var before, last := s[..|s| - 1], s[|s| - 1];
      if KeyLess(e, last) {
        OnlyInsert(before, e, doc);
        OnlyMore(Insert(before, e), last, doc);
      } else {
        OnlyMore(s, e, doc);
        OnlyIn(s, doc);
        var kept := Only(s, doc);
        if kept != [] {
          assert kept[|kept| - 1] in s;
          var i :| 0 <= i < |s| && s[i] == kept[|kept| - 1];
          NotBelow(s, e, i);
        }
      }
    }
  }

  lemma NotBelow(s: seq<Entry>, e: Entry, i: nat)
    requires InOrder(s) && i < |s| && !KeyLess(e, s[|s| - 1])
    ensures !KeyLess(e, s[i])
  {
    if KeyLess(e, s[i]) && i < |s| - 1 {
      KeyBelow(e, s[i], s[|s| - 1]);
    }
  }

  /** A stable sort commutes with keeping one workspace's rows. */
  lemma {:induction false} OnlySorted(es: seq<Entry>, doc: Option<nat>)
    ensures Only(Sorted(es), doc) == Sorted(Only(es, doc))
  {
    if es != [] {
      var before, last := es[..|es| - 1], es[|es| - 1];
      OnlySorted(before, doc);
      SortedIs(before);
      OnlyInsert(Sorted(before), last, doc);
      if last.row.doc == doc {
        assert (Only(before, doc) + [last])[..|Only(before, doc)|] == Only(before, doc);
      }
    }
  }

  // ---- days ----

  /** Today first, even when empty; then a group for each new day. */
  function Grouped(today: string, es: seq<Entry>): (out: seq<Day>)
    ensures out != []
  {
    if es == [] then [Day(today, [])]
    else
      var rest := Grouped(today, es[..|es| - 1]);
      Pushed(rest, es[|es| - 1])
  }

  function Pushed(days: seq<Day>, e: Entry): (out: seq<Day>)
    requires days != []
    ensures out != []
  {
    var last := days[|days| - 1];
    if last.day == e.day then days[..|days| - 1] + [Day(last.day, last.rows + [e.row])]
    else days + [Day(e.day, [e.row])]
  }

  function AgendaOf(sources: seq<Source>, today: string, horizon: string): seq<Day> {
    Grouped(today, Sorted(PlacedFrom(sources, today, horizon)))
  }

  ghost predicate Rising(days: seq<Day>) {
    forall i, j :: 0 <= i < j < |days| ==> Less(days[i].day, days[j].day)
  }

  function AllRows(days: seq<Day>): seq<Row> {
    if days == [] then [] else AllRows(days[..|days| - 1]) + days[|days| - 1].rows
  }

  function RowsOf(es: seq<Entry>): seq<Row> {
    if es == [] then [] else RowsOf(es[..|es| - 1]) + [es[|es| - 1].row]
  }

  lemma PushedRows(days: seq<Day>, e: Entry)
    requires days != []
    ensures AllRows(Pushed(days, e)) == AllRows(days) + [e.row]
  {
    var out := Pushed(days, e);
    var last := days[|days| - 1];
    if last.day == e.day {
      assert out[..|out| - 1] == days[..|days| - 1];
      assert AllRows(days[..|days| - 1]) + (last.rows + [e.row]) == AllRows(days[..|days| - 1]) + last.rows + [e.row];
    } else {
      assert out[..|out| - 1] == days;
    }
  }

  lemma {:induction false} GroupedRows(today: string, es: seq<Entry>)
    ensures AllRows(Grouped(today, es)) == RowsOf(es)
  {
    if es == [] {
      assert Grouped(today, es)[..0] == [];
    } else {
      GroupedRows(today, es[..|es| - 1]);
      PushedRows(Grouped(today, es[..|es| - 1]), es[|es| - 1]);
    }
  }

  /** Entries in order, none before today, give days that rise from today. */
  lemma {:induction false} GroupedRises(today: string, es: seq<Entry>)
    requires InOrder(es) && forall e :: e in es ==> !Less(e.day, today)
    ensures var out := Grouped(today, es);
            && Rising(out) && out[0].day == today
            && out[|out| - 1].day == (if es == [] then today else es[|es| - 1].day)
            && forall i :: 0 < i < |out| ==> out[i].rows != []
  {
    if es != [] {
      var before, e := es[..|es| - 1], es[|es| - 1];
      GroupedRises(today, before);
      var rest := Grouped(today, before);
      var last := rest[|rest| - 1];
      assert e in es;
      LessIsTotal(last.day, e.day);
      if before != [] {
        assert !KeyLess(e, before[|before| - 1]);
      }
      PushedRises(rest, e);
    }
  }

  lemma PushedRises(days: seq<Day>, e: Entry)
    requires days != [] && Rising(days) && (forall i :: 0 < i < |days| ==> days[i].rows != [])
    requires days[|days| - 1].day == e.day || Less(days[|days| - 1].day, e.day)
    ensures var out := Pushed(days, e);
            && Rising(out) && out[0].day == days[0].day && out[|out| - 1].day == e.day
            && forall i :: 0 < i < |out| ==> out[i].rows != []
  {
    var last := days[|days| - 1];
    if last.day != e.day {
      forall i | 0 <= i < |days| ensures Less(days[i].day, e.day) {
        if i < |days| - 1 { LessIsTransitive(days[i].day, last.day, e.day); }
      }
    }
  }

  lemma {:induction false} NoneBeforeToday(sources: seq<Source>, today: string, horizon: string)
    ensures forall e :: e in PlacedFrom(sources, today, horizon) ==> !Less(e.day, today) && !Less(horizon, e.day)
  {
    if sources != [] {
      var last := sources[|sources| - 1];
      NoneBeforeToday(sources[..|sources| - 1], today, horizon);
      PlacedAllWithin(last.doc, last.items, today, horizon);
    }
  }

  lemma {:induction false} PlacedAllWithin(doc: Option<nat>, items: seq<ItemView>, today: string, horizon: string)
    ensures forall e :: e in PlaceAll(doc, items, today, horizon) ==>
              !Less(e.day, today) && !Less(horizon, e.day) && e.row.doc == doc
  {
    if items != [] {
      PlacedAllWithin(doc, items[..|items| - 1], today, horizon);
      if Place(doc, items[|items| - 1], today, horizon).Some? {
        PlacedWithin(doc, items[|items| - 1], today, horizon);
      }
    }
  }

  lemma RowsMore(es: seq<Entry>, e: Entry)
    ensures RowsOf(es + [e]) == RowsOf(es) + [e.row]
  {
    assert (es + [e])[..|es|] == es;
  }

  lemma {:induction false} RowsInsert(s: seq<Entry>, e: Entry)
    ensures multiset(RowsOf(Insert(s, e))) == multiset(RowsOf(s)) + multiset{e.row}
  {
    if s == [] {
      assert [e][..0] == [];
    } else if KeyLess(e, s[|s| - 1]) {
      RowsInsert(s[..|s| - 1], e);
      RowsMore(Insert(s[..|s| - 1], e), s[|s| - 1]);
    } else {
      RowsMore(s, e);
    }
  }

  lemma {:induction false} RowsSorted(es: seq<Entry>)
    ensures multiset(RowsOf(Sorted(es))) == multiset(RowsOf(es))
  {
    if es != [] {
      RowsSorted(es[..|es| - 1]);
      RowsInsert(Sorted(es[..|es| - 1]), es[|es| - 1]);
    }
  }

  /** An agenda's days rise from today, which is always there; no other day is
      empty; and every item that places is on it exactly once. */
  lemma AgendaShape(sources: seq<Source>, today: string, horizon: string)
    ensures var out := AgendaOf(sources, today, horizon);
            && out[0].day == today && Rising(out)
            && (forall i :: 0 < i < |out| ==> out[i].rows != [] && !Less(horizon, out[i].day))
            && multiset(AllRows(out)) == multiset(RowsOf(PlacedFrom(sources, today, horizon)))
  {
    var placed := PlacedFrom(sources, today, horizon);
    SortedIs(placed);
    NoneBeforeToday(sources, today, horizon);
    GroupedRises(today, Sorted(placed));
    GroupedRows(today, Sorted(placed));
    RowsSorted(placed);
    forall i | 0 < i < |Grouped(today, Sorted(placed))| ensures !Less(horizon, Grouped(today, Sorted(placed))[i].day) {
      var x := DayHasEntry(today, Sorted(placed), i);
      assert x in placed;
    }
  }

  lemma PushedDays(days: seq<Day>, e: Entry)
    requires days != []
    ensures |days| <= |Pushed(days, e)| <= |days| + 1
    ensures forall i :: 0 <= i < |days| ==> Pushed(days, e)[i].day == days[i].day
    ensures |days| < |Pushed(days, e)| ==> Pushed(days, e)[|days|].day == e.day
  {}

  lemma {:induction false} DayHasEntry(today: string, es: seq<Entry>, i: nat) returns (x: Entry)
    requires 0 < i < |Grouped(today, es)|
    ensures x in es && x.day == Grouped(today, es)[i].day
  {
    assert es != [];
    var before, e := es[..|es| - 1], es[|es| - 1];
    var rest := Grouped(today, before);
    PushedDays(rest, e);
    if i < |rest| {
      x := DayHasEntry(today, before, i);
    } else {
      x := e;
    }
  }

  // ---- one workspace's agenda ----

  function OnlyRows(rows: seq<Row>, doc: Option<nat>): seq<Row> {
    if rows == [] then []
    else
      var rest := OnlyRows(rows[..|rows| - 1], doc);
      if rows[|rows| - 1].doc == doc then rest + [rows[|rows| - 1]] else rest
  }

  lemma OnlyRowsMore(rows: seq<Row>, r: Row, doc: Option<nat>)
    ensures OnlyRows(rows + [r], doc) == if r.doc == doc then OnlyRows(rows, doc) + [r] else OnlyRows(rows, doc)
  {
    assert (rows + [r])[..|rows|] == rows;
  }

  /** An agenda with one workspace's rows only, and the days they leave. */
  function Restricted(days: seq<Day>, doc: Option<nat>): (out: seq<Day>)
    requires days != []
    ensures out != []
    decreases |days|
  {
    var last := days[|days| - 1];
    var kept := Day(last.day, OnlyRows(last.rows, doc));
    if |days| == 1 then [kept]
    else
      var rest := Restricted(days[..|days| - 1], doc);
      if kept.rows == [] then rest else rest + [kept]
  }

  lemma RestrictedMore(days: seq<Day>, d: Day, doc: Option<nat>)
    requires days != []
    ensures Restricted(days + [d], doc) ==
            if OnlyRows(d.rows, doc) == [] then Restricted(days, doc)
            else Restricted(days, doc) + [Day(d.day, OnlyRows(d.rows, doc))]
  {
    assert (days + [d])[..|days|] == days;
  }

  lemma {:induction false} RestrictedDays(days: seq<Day>, doc: Option<nat>)
    requires days != [] && Rising(days)
    ensures var out := Restricted(days, doc);
            out[|out| - 1].day == days[|days| - 1].day || Less(out[|out| - 1].day, days[|days| - 1].day)
    decreases |days|
  {
    if |days| > 1 {
      var before := days[..|days| - 1];
      RestrictedDays(before, doc);
      var out := Restricted(before, doc);
      assert Less(before[|before| - 1].day, days[|days| - 1].day);
      if Less(out[|out| - 1].day, before[|before| - 1].day) {
        LessIsTransitive(out[|out| - 1].day, before[|before| - 1].day, days[|days| - 1].day);
      }
    }
  }

  /** Adding a row of another workspace changes nothing that is kept. */
  lemma PushOther(days: seq<Day>, e: Entry, doc: Option<nat>)
    requires days != [] && e.row.doc != doc
    ensures Restricted(Pushed(days, e), doc) == Restricted(days, doc)
  {
    var last := days[|days| - 1];
    if last.day == e.day {
      OnlyRowsMore(last.rows, e.row, doc);
      var d := Day(last.day, last.rows + [e.row]);
      if |days| == 1 {
        assert Pushed(days, e) == [d];
      } else {
        RestrictedMore(days[..|days| - 1], d, doc);
      }
    } else {
      OnlyRowsMore([], e.row, doc);
      assert [] + [e.row] == [e.row];
      RestrictedMore(days, Day(e.day, [e.row]), doc);
    }
  }

  lemma PushOwnFirst(last: Day, e: Entry, doc: Option<nat>)
    requires e.row.doc == doc && last.day == e.day
    ensures Restricted(Pushed([last], e), doc) == Pushed(Restricted([last], doc), e)
  {
    OnlyRowsMore(last.rows, e.row, doc);
    assert Pushed([last], e) == [Day(last.day, last.rows + [e.row])];
  }

  lemma PushOwnToday(days: seq<Day>, e: Entry, doc: Option<nat>)
    requires days != [] && Rising(days) && e.row.doc == doc && days[|days| - 1].day == e.day
    ensures Restricted(Pushed(days, e), doc) == Pushed(Restricted(days, doc), e)
  {
    var before, last := days[..|days| - 1], days[|days| - 1];
    assert days == before + [last];
    if before == [] {
      assert days == [last];
      PushOwnFirst(last, e, doc);
    } else {
      PushOwnLast(before, last, e, doc);
    }
  }

  lemma PushOwnLast(before: seq<Day>, last: Day, e: Entry, doc: Option<nat>)
    requires before != [] && Rising(before + [last]) && e.row.doc == doc && last.day == e.day
    ensures Restricted(before + [Day(last.day, last.rows + [e.row])], doc) ==
        Pushed(Restricted(before + [last], doc), e)
  {
    var o := Restricted(before, doc);
    OnlyRowsMore(last.rows, e.row, doc);
    RestrictedMore(before, Day(last.day, last.rows + [e.row]), doc);
    RestrictedMore(before, last, doc);
    LastIsEarlier(before, last, doc);
    var kept := Day(last.day, OnlyRows(last.rows, doc));
    assert (o + [kept])[..|o|] == o;
    assert [] + [e.row] == [e.row];
  }

  lemma LastIsEarlier(before: seq<Day>, last: Day, doc: Option<nat>)
    requires before != [] && Rising(before + [last])
    ensures var o := Restricted(before, doc); o[|o| - 1].day != last.day
  {
    var o := Restricted(before, doc);
    assert forall i :: 0 <= i < |before| ==> (before + [last])[i] == before[i];
    assert Less((before + [last])[|before| - 1].day, (before + [last])[|before|].day);
    RestrictedDays(before, doc);
    if Less(o[|o| - 1].day, before[|before| - 1].day) {
      LessIsTransitive(o[|o| - 1].day, before[|before| - 1].day, last.day);
    }
    LessIsTotal(last.day, last.day);
  }

  lemma PushOwnLater(days: seq<Day>, e: Entry, doc: Option<nat>)
    requires days != [] && Rising(days) && e.row.doc == doc && Less(days[|days| - 1].day, e.day)
    ensures Restricted(Pushed(days, e), doc) == Pushed(Restricted(days, doc), e)
  {
    var last := days[|days| - 1];
    var out := Restricted(days, doc);
    RestrictedDays(days, doc);
    LessIsTotal(last.day, e.day);
    OnlyRowsMore([], e.row, doc);
    assert [] + [e.row] == [e.row];
    RestrictedMore(days, Day(e.day, [e.row]), doc);
    if Less(out[|out| - 1].day, last.day) {
      LessIsTransitive(out[|out| - 1].day, last.day, e.day);
    }
    LessIsTotal(out[|out| - 1].day, e.day);
  }

  lemma PushOwn(days: seq<Day>, e: Entry, doc: Option<nat>)
    requires days != [] && Rising(days) && e.row.doc == doc
    requires days[|days| - 1].day == e.day || Less(days[|days| - 1].day, e.day)
    ensures Restricted(Pushed(days, e), doc) == Pushed(Restricted(days, doc), e)
  {
    if days[|days| - 1].day == e.day {
      PushOwnToday(days, e, doc);
    } else {
      PushOwnLater(days, e, doc);
    }
  }

  /** Grouping commutes with keeping one workspace's rows. */
  lemma {:induction false} RestrictedGrouped(today: string, es: seq<Entry>, doc: Option<nat>)
    requires InOrder(es) && forall e :: e in es ==> !Less(e.day, today)
    ensures Restricted(Grouped(today, es), doc) == Grouped(today, Only(es, doc))
  {
    if es != [] {
      var before, e := es[..|es| - 1], es[|es| - 1];
      RestrictedGrouped(today, before, doc);
      GroupedRises(today, before);
      var days := Grouped(today, before);
      assert e in es;
      LessIsTotal(days[|days| - 1].day, e.day);
      if before != [] { assert !KeyLess(e, before[|before| - 1]); }
      if e.row.doc == doc {
        PushOwn(days, e, doc);
        assert (Only(before, doc) + [e])[..|Only(before, doc)|] == Only(before, doc);
      } else {
        PushOther(days, e, doc);
      }
    }
  }

  lemma {:induction false} OnlyOwn(es: seq<Entry>, doc: Option<nat>, own: bool)
    requires forall e :: e in es ==> (e.row.doc == doc) == own
    ensures Only(es, doc) == if own then es else []
  {
    if es != [] {
      OnlyOwn(es[..|es| - 1], doc, own);
      assert es == es[..|es| - 1] + [es[|es| - 1]];
    }
  }

  ghost predicate DistinctSources(sources: seq<Source>) {
    forall i, j :: 0 <= i < j < |sources| ==> sources[i].doc != sources[j].doc
  }

  lemma {:induction false} OnlyPlaced(sources: seq<Source>, k: nat, today: string, horizon: string)
    requires DistinctSources(sources) && k < |sources|
    ensures Only(PlacedFrom(sources, today, horizon), sources[k].doc) ==
            PlaceAll(sources[k].doc, sources[k].items, today, horizon)
  {
    var before, last := sources[..|sources| - 1], sources[|sources| - 1];
    var rows := PlaceAll(last.doc, last.items, today, horizon);
    OnlyConcat(PlacedFrom(before, today, horizon), rows, sources[k].doc);
    PlacedAllWithin(last.doc, last.items, today, horizon);
    OnlyOwn(rows, sources[k].doc, k == |sources| - 1);
    if k < |sources| - 1 {
      OnlyPlaced(before, k, today, horizon);
    } else {
      NoneOf(before, last.doc, today, horizon);
    }
  }

  lemma {:induction false} NoneOf(sources: seq<Source>, doc: Option<nat>, today: string, horizon: string)
    requires forall i :: 0 <= i < |sources| ==> sources[i].doc != doc
    ensures Only(PlacedFrom(sources, today, horizon), doc) == []
  {
    if sources != [] {
      var last := sources[|sources| - 1];
      var rows := PlaceAll(last.doc, last.items, today, horizon);
      NoneOf(sources[..|sources| - 1], doc, today, horizon);
      OnlyConcat(PlacedFrom(sources[..|sources| - 1], today, horizon), rows, doc);
      PlacedAllWithin(last.doc, last.items, today, horizon);
      OnlyOwn(rows, doc, false);
    }
  }

  lemma AgendaOnly(sources: seq<Source>, doc: Option<nat>, today: string, horizon: string)
    ensures Restricted(AgendaOf(sources, today, horizon), doc) ==
            Grouped(today, Sorted(Only(PlacedFrom(sources, today, horizon), doc)))
  {
    var placed := PlacedFrom(sources, today, horizon);
    SortedIs(placed);
    NoneBeforeToday(sources, today, horizon);
    RestrictedGrouped(today, Sorted(placed), doc);
    OnlySorted(placed, doc);
  }

  lemma OneSource(s: Source, today: string, horizon: string)
    ensures PlacedFrom([s], today, horizon) == PlaceAll(s.doc, s.items, today, horizon)
  {
    assert [s][..0] == [];
    assert PlacedFrom([s], today, horizon) == [] + PlaceAll(s.doc, s.items, today, horizon);
  }

  /** The merge loses nothing and moves nothing: keeping one workspace's rows
      of it gives the agenda of that workspace alone. */
  lemma MergeKeepsEachAgenda(sources: seq<Source>, k: nat, today: string, horizon: string)
    requires DistinctSources(sources) && k < |sources|
    ensures Restricted(AgendaOf(sources, today, horizon), sources[k].doc) == AgendaOf([sources[k]], today, horizon)
  {
    AgendaOnly(sources, sources[k].doc, today, horizon);
    OnlyPlaced(sources, k, today, horizon);
    OneSource(sources[k], today, horizon);
  }

  // ---- tags make no difference ----

  function Tag(e: Entry, doc: Option<nat>): Entry { e.(row := e.row.(doc := doc)) }

  function TagAll(es: seq<Entry>, doc: Option<nat>): seq<Entry> {
    if es == [] then [] else TagAll(es[..|es| - 1], doc) + [Tag(es[|es| - 1], doc)]
  }

  function TagDays(days: seq<Day>, doc: Option<nat>): (out: seq<Day>)
    ensures |out| == |days|
  {
    if days == [] then []
    else TagDays(days[..|days| - 1], doc) + [Day(days[|days| - 1].day, TagRows(days[|days| - 1].rows, doc))]
  }

  function TagRows(rows: seq<Row>, doc: Option<nat>): seq<Row> {
    if rows == [] then [] else TagRows(rows[..|rows| - 1], doc) + [rows[|rows| - 1].(doc := doc)]
  }

  lemma TagMore(es: seq<Entry>, e: Entry, doc: Option<nat>)
    ensures TagAll(es + [e], doc) == TagAll(es, doc) + [Tag(e, doc)]
  {
    assert (es + [e])[..|es|] == es;
  }

  lemma {:induction false} TagInsert(s: seq<Entry>, e: Entry, doc: Option<nat>)
    ensures TagAll(Insert(s, e), doc) == Insert(TagAll(s, doc), Tag(e, doc))
  {
    if s == [] {
      assert [e][..0] == [];
    } else {
      var before, last := s[..|s| - 1], s[|s| - 1];
      var t := TagAll(s, doc);
      assert t[..|t| - 1] == TagAll(before, doc);
      assert t[|t| - 1] == Tag(last, doc) && KeyLess(Tag(e, doc), Tag(last, doc)) == KeyLess(e, last);
      if KeyLess(e, last) {
        TagInsert(before, e, doc);
        TagMore(Insert(before, e), last, doc);
      } else {
        TagMore(s, e, doc);
      }
    }
  }

  lemma {:induction false} TagSorted(es: seq<Entry>, doc: Option<nat>)
    ensures TagAll(Sorted(es), doc) == Sorted(TagAll(es, doc))
  {
    if es != [] {
      var before := es[..|es| - 1];
      TagSorted(before, doc);
      TagInsert(Sorted(before), es[|es| - 1], doc);
      var t := TagAll(es, doc);
      assert t[..|t| - 1] == TagAll(before, doc);
    }
  }

  lemma TagPushed(days: seq<Day>, e: Entry, doc: Option<nat>)
    requires days != []
    ensures TagDays(Pushed(days, e), doc) == Pushed(TagDays(days, doc), Tag(e, doc))
  {
    var last := days[|days| - 1];
    var out := Pushed(days, e);
    var t := TagDays(days, doc);
    assert t[..|t| - 1] == TagDays(days[..|days| - 1], doc);
    assert t[|t| - 1] == Day(last.day, TagRows(last.rows, doc));
    if last.day == e.day {
      assert out[..|out| - 1] == days[..|days| - 1];
      assert (last.rows + [e.row])[..|last.rows|] == last.rows;
    } else {
      assert out[..|out| - 1] == days;
      assert [e.row][..0] == [];
      assert TagRows([e.row], doc) == TagRows([e.row][..0], doc) + [e.row.(doc := doc)] == [Tag(e, doc).row];
      assert TagDays(out, doc) == TagDays(days, doc) + [Day(e.day, [Tag(e, doc).row])];
    }
  }

  lemma {:induction false} TagGrouped(today: string, es: seq<Entry>, doc: Option<nat>)
    ensures TagDays(Grouped(today, es), doc) == Grouped(today, TagAll(es, doc))
  {
    if es == [] {
      assert [Day(today, [])][..0] == [];
    } else {
      TagGrouped(today, es[..|es| - 1], doc);
      TagPushed(Grouped(today, es[..|es| - 1]), es[|es| - 1], doc);
      var t := TagAll(es, doc);
      assert t[..|t| - 1] == TagAll(es[..|es| - 1], doc);
    }
  }

  lemma {:induction false} TagPlaced(doc: Option<nat>, other: Option<nat>, items: seq<ItemView>, today: string,
                                     horizon: string)
    ensures TagAll(PlaceAll(doc, items, today, horizon), other) == PlaceAll(other, items, today, horizon)
  {
    if items != [] {
      var rest := PlaceAll(doc, items[..|items| - 1], today, horizon);
      TagPlaced(doc, other, items[..|items| - 1], today, horizon);
      var e := Place(doc, items[|items| - 1], today, horizon);
      if e.Some? {
        TagMore(rest, e.value, other);
      }
    }
  }

  /** `build_agenda`: one workspace, no tags. */
  function Plain(items: seq<ItemView>, today: string, horizon: string): seq<Day> {
    AgendaOf([Source(None, items)], today, horizon)
  }

  /** So a workspace's rows of a merged agenda, tags off, are the agenda the
      workspace prints by itself. */
  lemma MergeShowsPlainAgenda(sources: seq<Source>, k: nat, today: string, horizon: string)
    requires DistinctSources(sources) && k < |sources|
    ensures TagDays(Restricted(AgendaOf(sources, today, horizon), sources[k].doc), None) ==
            Plain(sources[k].items, today, horizon)
  {
    MergeKeepsEachAgenda(sources, k, today, horizon);
    TagsOff(sources[k], today, horizon);
  }

  lemma TagsOff(s: Source, today: string, horizon: string)
    ensures TagDays(AgendaOf([s], today, horizon), None) == Plain(s.items, today, horizon)
  {
    var placed := PlaceAll(s.doc, s.items, today, horizon);
    OneSource(s, today, horizon);
    OneSource(Source(None, s.items), today, horizon);
    TagPlaced(s.doc, None, s.items, today, horizon);
    TagSorted(placed, None);
    TagGrouped(today, Sorted(placed), None);
  }

  // ---- the program ----

  method SortEntries(placed: seq<Entry>) returns (s: seq<Entry>)
    ensures s == Sorted(placed)
  {
    s := [];
    for i := 0 to |placed|
      invariant s == Sorted(placed[..i])
    {
      assert placed[..i + 1][..i] == placed[..i];
      s := InsertEntry(s, placed[i]);
    }
    assert placed[..|placed|] == placed;
  }

  method InsertEntry(s: seq<Entry>, e: Entry) returns (r: seq<Entry>)
    ensures r == Insert(s, e)
  {
    var k: nat := |s|;
    assert s[..k] == s && Insert(s, e) == Insert(s[..k], e) + s[k..];
    while 0 < k && KeyLess(e, s[k - 1])
      invariant k <= |s| && Insert(s, e) == Insert(s[..k], e) + s[k..]
    {
      InsertEarlier(s, e, k);
      k := k - 1;
    }
    r := s[..k] + [e] + s[k..];
  }

  lemma InsertEarlier(s: seq<Entry>, e: Entry, k: nat)
    requires 0 < k <= |s| && KeyLess(e, s[k - 1])
    ensures Insert(s[..k], e) + s[k..] == Insert(s[..k - 1], e) + s[k - 1..]
  {
    assert s[..k][..k - 1] == s[..k - 1];
    assert [s[k - 1]] + s[k..] == s[k - 1..];
    assert Insert(s[..k], e) == Insert(s[..k - 1], e) + [s[k - 1]];
    assert Insert(s[..k - 1], e) + [s[k - 1]] + s[k..] == Insert(s[..k - 1], e) + ([s[k - 1]] + s[k..]);
  }

  method PlaceItems(source: Source, today: string, horizon: string) returns (placed: seq<Entry>)
    ensures placed == PlaceAll(source.doc, source.items, today, horizon)
  {
    var items := source.items;
    placed := [];
    for k := 0 to |items|
      invariant placed == PlaceAll(source.doc, items[..k], today, horizon)
    {
      assert items[..k + 1][..k] == items[..k];
      var e := Place(source.doc, items[k], today, horizon);
      if e.Some? {
        placed := placed + [e.value];
      }
    }
    assert items[..|items|] == items;
  }

  method GroupEntries(today: string, sorted: seq<Entry>) returns (out: seq<Day>)
    ensures out == Grouped(today, sorted)
  {
    out := [Day(today, [])];
    for i := 0 to |sorted|
      invariant out == Grouped(today, sorted[..i])
    {
      assert sorted[..i + 1][..i] == sorted[..i];
      var last := out[|out| - 1];
      if last.day == sorted[i].day {
        out := out[..|out| - 1] + [Day(last.day, last.rows + [sorted[i].row])];
      } else {
        out := out + [Day(sorted[i].day, [sorted[i].row])];
      }
    }
    assert sorted[..|sorted|] == sorted;
  }

  method BuildAgendaFrom(sources: seq<Source>, today: string, horizon: string) returns (out: seq<Day>)
    ensures out == AgendaOf(sources, today, horizon)
  {
    var placed := [];
    for i := 0 to |sources|
      invariant placed == PlacedFrom(sources[..i], today, horizon)
    {
      assert sources[..i + 1][..i] == sources[..i];
      var more := PlaceItems(sources[i], today, horizon);
      placed := placed + more;
    }
    assert sources[..|sources|] == sources;
    var sorted := SortEntries(placed);
    out := GroupEntries(today, sorted);
  }
}
