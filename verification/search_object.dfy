/** The index as an object: hash maps changed in place, one key at a time, in
    whatever order the hash sets are walked. */
module SearchObject {
  import opened Wrappers
  import opened SearchIndexing

  datatype AppEvent =
    | FullResync
    | ItemAdded(id: string) | ItemRemoved(id: string) | ItemTextChanged(id: string)
    | ItemNotesChanged(id: string) | ItemNotesDelta(id: string)
    | ItemLifecycleChanged(id: string) | ItemListChanged(id: string)
    | ListAdded(id: string) | ListRemoved(id: string) | ListRenamed(id: string)
    | OtherEvent

  predicate TouchesItem(ev: AppEvent) {
    ev.ItemAdded? || ev.ItemRemoved? || ev.ItemTextChanged? || ev.ItemNotesChanged? || ev.ItemNotesDelta?
    || ev.ItemLifecycleChanged? || ev.ItemListChanged?
  }

  predicate TouchesList(ev: AppEvent) { ev.ListAdded? || ev.ListRemoved? || ev.ListRenamed? }

  /** Docs are filed under their own ids, and only items are in lists. */
  ghost predicate Shaped(docs: Docs) {
    forall id :: id in docs ==>
      docs[id].id == id && (docs[id].kind == ListKind ==> docs[id].listId == None)
  }

  /** No id was ever both an item's and a list's. */
  ghost predicate KindsApart(docs: Docs, lists: set<string>, items: set<string>, c: Corpus) {
    && (forall id :: id in docs && docs[id].kind == ItemKind ==> id !in c.lists && id !in lists)
    && (forall id :: id in docs && docs[id].kind == ListKind ==> id !in c.items && id !in items)
    && lists !! c.items.Keys && items !! c.lists.Keys
  }

  ghost predicate NamesCovered(names: map<string, string>, lists: set<string>, c: Corpus) {
    && "" !in names
    && forall l :: l !in lists ==> (l in names <==> l in c.lists) && (l in names ==> names[l] == c.lists[l].name)
  }

  ghost predicate DocCovered(tok: Tokenizer, docs: Docs, names: map<string, string>, c: Corpus, id: string) {
    && (id in docs <==> id in c.lists || id in c.items)
    && (id in docs ==>
          docs[id] == if id in c.lists then ListDoc(tok, c.lists[id]) else ItemDoc(tok, c.items[id], names))
  }

  /** Every id the index is out of date about is marked dirty. */
  ghost predicate Covered(tok: Tokenizer, docs: Docs, names: map<string, string>, lists: set<string>,
                          items: set<string>, c: Corpus) {
    && NamesCovered(names, lists, c)
    && KindsApart(docs, lists, items, c)
    && forall id :: id !in lists && id !in items ==> DocCovered(tok, docs, names, c, id)
  }

  /** With nothing dirty the index is the one a rebuild would make. */
  lemma CleanIsRebuilt(tok: Tokenizer, docs: Docs, names: map<string, string>, c: Corpus)
    requires c.Valid() && Covered(tok, docs, names, {}, {}, c)
    ensures docs == DocsOf(tok, c) && names == c.Names()
  {
    assert names.Keys == c.lists.Keys;
    assert names == c.Names();
    var r := DocsOf(tok, c);
    forall id ensures id in docs <==> id in r {
      assert DocCovered(tok, docs, names, c, id);
    }
    forall id | id in docs ensures docs[id] == r[id] {
      assert DocCovered(tok, docs, names, c, id);
    }
  }

  /** Marking what a change touched keeps the rest covered. */
  lemma ChangeCovered(tok: Tokenizer, docs: Docs, names: map<string, string>, lists: set<string>, items: set<string>,
                      c: Corpus, d: Corpus, els: set<string>, eis: set<string>)
    requires Covered(tok, docs, names, lists, items, c)
    requires forall l :: l !in els ==> (l in c.lists <==> l in d.lists) && (l in c.lists ==> c.lists[l] == d.lists[l])
    requires forall i :: i !in eis ==> (i in c.items <==> i in d.items) && (i in c.items ==> c.items[i] == d.items[i])
    requires KindsApart(docs, lists + els, items + eis, d)
    ensures Covered(tok, docs, names, lists + els, items + eis, d)
  {
    forall id | id !in lists + els && id !in items + eis ensures DocCovered(tok, docs, names, d, id) {
      assert DocCovered(tok, docs, names, c, id);
    }
  }

  lemma CoveredWeaken(tok: Tokenizer, docs: Docs, names: map<string, string>, lists: set<string>,
                      items: set<string>, more: set<string>, c: Corpus)
    requires Covered(tok, docs, names, lists, items, c) && items <= more
    requires KindsApart(docs, lists, more, c)
    ensures Covered(tok, docs, names, lists, more, c)
  {}

  lemma StillCovered(tok: Tokenizer, docs: Docs, names: map<string, string>, lists: set<string>,
                     items: set<string>, todo: set<string>, c: Corpus, id: string)
    requires Covered(tok, docs, names, lists, items + todo - {id}, c)
    requires id in todo && id !in lists && id !in c.lists
    ensures Covered(tok, docs, names, lists, items + (todo - {id}), c)
  {
    assert DocCovered(tok, docs, names, c, id);
    CoveredWeaken(tok, docs, names, lists, items + todo - {id}, items + (todo - {id}), c);
  }

  /** Reindexing a renamed list does not of itself reach its items: an item is
      left as a rebuild would have it exactly when the two names have the same
      tokens. The caller re-reads them. */
  lemma RenameAlone(tok: Tokenizer, docs: Docs, names: map<string, string>, list: ListView, item: ItemView)
    requires item.listId == list.id && item.id != list.id
    requires item.id in docs && docs[item.id] == ItemDoc(tok, item, names)
    ensures docs[list.id := ListDoc(tok, list)][item.id] == ItemDoc(tok, item, names[list.id := list.name]) <==>
            TokenSet(tok, NameOf(names, list.id)) == TokenSet(tok, list.name)
  {}

  /** A tokenizer that takes each string as one token. */
  function Whole(text: string): seq<Token> { if text == "" then [] else [text] }

  /** It can be left behind: after a list is renamed from "home" to "garden",
      its item still answers to the old name. */
  lemma RenameLeavesBehind()
    ensures var item := ItemView("i", "mow", "", "l", Todo, 0, None);
            var names := map["l" := "home"];
            var list := ListView("l", "garden", 0);
            var docs := map["i" := ItemDoc(Whole, item, names), "l" := ListDoc(Whole, list.(name := "home"))];
            var after := docs[list.id := ListDoc(Whole, list)];
            && after["i"] != ItemDoc(Whole, item, names[list.id := list.name])
            && "home" in after["i"].AllTokens() && "garden" !in after["i"].AllTokens()
  {
    assert "home" in Whole("home") && "garden" in Whole("garden");
    assert TokenSet(Whole, "home") == {"home"} && TokenSet(Whole, "garden") == {"garden"};
  }

  /** Re-reading one item makes it clean. */
  lemma ItemRead(tok: Tokenizer, docs: Docs, names: map<string, string>, lists: set<string>,
                 items: set<string>, c: Corpus, id: string)
    requires c.Valid() && Covered(tok, docs, names, lists, items, c) && id in items && id !in lists
    ensures id in c.items ==> Covered(tok, docs[id := ItemDoc(tok, c.items[id], names)], names, lists, items - {id}, c)
    ensures id !in c.items ==> Covered(tok, docs - {id}, names, lists, items - {id}, c)
  {
    if id in c.items {
      var r := docs[id := ItemDoc(tok, c.items[id], names)];
      forall i | i !in lists && i !in items - {id} ensures DocCovered(tok, r, names, c, i) {
        if i != id { assert DocCovered(tok, docs, names, c, i); }
      }
    } else {
      forall i | i !in lists && i !in items - {id} ensures DocCovered(tok, docs - {id}, names, c, i) {
        if i != id { assert DocCovered(tok, docs, names, c, i); }
      }
    }
  }

  /** An item not filed under `l` does not read its name. */
  lemma NotUnder(tok: Tokenizer, docs: Docs, names: map<string, string>, renamed: map<string, string>,
                 c: Corpus, l: string, id: string)
    requires c.Valid() && DocCovered(tok, docs, names, c, id) && id in c.items && id !in Members(docs, l)
    requires forall k :: k != l ==> (k in names <==> k in renamed) && (k in names ==> names[k] == renamed[k])
    requires l == "" ==> l !in names && l !in renamed
    ensures ItemDoc(tok, c.items[id], renamed) == ItemDoc(tok, c.items[id], names)
  {
    assert docs[id] == ItemDoc(tok, c.items[id], names);
    assert c.items[id].listId == l ==> l == "";
  }

  /** Re-reading one list makes it clean, and its items dirty. */
  lemma ListRead(tok: Tokenizer, docs: Docs, names: map<string, string>, lists: set<string>,
                 items: set<string>, c: Corpus, l: string)
    requires c.Valid() && Covered(tok, docs, names, lists, items, c) && l in lists
    ensures l in c.lists ==>
              Covered(tok, docs[l := ListDoc(tok, c.lists[l])], names[l := c.lists[l].name], lists - {l},
                  items + Members(docs, l), c)
    ensures l !in c.lists ==>
              Covered(tok, docs - {l}, names - {l}, lists - {l}, items + Members(docs, l), c)
  {
    var r := if l in c.lists then docs[l := ListDoc(tok, c.lists[l])] else docs - {l};
    var n := if l in c.lists then names[l := c.lists[l].name] else names - {l};
    forall i | i !in lists - {l} && i !in items + Members(docs, l) ensures DocCovered(tok, r, n, c, i) {
      if i != l {
        assert DocCovered(tok, docs, names, c, i);
        if i in c.items { NotUnder(tok, docs, names, n, c, l, i); }
      }
    }
    forall i | i in Members(docs, l) ensures i !in c.lists {
      assert docs[i].kind == ItemKind;
    }
    assert KindsApart(r, lists - {l}, items + Members(docs, l), c);
  }

  /** Re-reading a list leaves its members as they were; none is a list. */
  lemma MembersAfter(tok: Tokenizer, docs: Docs, lists: set<string>, items: set<string>, c: Corpus, l: string)
    requires Shaped(docs) && KindsApart(docs, lists, items, c) && l in lists
    ensures Members(docs - {l}, l) == Members(docs, l) && Members(docs, l) !! lists
    ensures l in c.lists ==> Members(docs[l := ListDoc(tok, c.lists[l])], l) == Members(docs, l)
  {
    assert l in docs ==> ListOf(docs[l]) == {};
    forall id | id in Members(docs, l) ensures id !in lists {
      assert docs[id].kind == ItemKind;
    }
  }

  ghost function ListIds(lists: seq<ListView>): set<string> { set l | l in lists :: l.id }

  ghost function ItemIds(items: seq<ItemView>): set<string> { set i | i in items :: i.id }

  lemma ListIdsMore(lists: seq<ListView>, l: ListView)
    ensures ListIds(lists + [l]) == ListIds(lists) + {l.id}
  {
    assert forall x :: x in lists + [l] <==> x in lists || x == l;
  }

  lemma ItemIdsMore(items: seq<ItemView>, i: ItemView)
    ensures ItemIds(items + [i]) == ItemIds(items) + {i.id}
  {
    assert forall x :: x in items + [i] <==> x in items || x == i;
  }

  ghost predicate ListsAre(lists: seq<ListView>, c: Corpus) {
    ListIds(lists) == c.lists.Keys && forall l :: l in lists ==> l.id in c.lists && c.lists[l.id] == l
  }

  ghost predicate ItemsAre(items: seq<ItemView>, c: Corpus) {
    ItemIds(items) == c.items.Keys && forall i :: i in items ==> i.id in c.items && c.items[i.id] == i
  }

  function AddLists(tok: Tokenizer, docs: Docs, lists: seq<ListView>): Docs {
    if lists == [] then docs
    else
      var l := lists[|lists| - 1];
      AddLists(tok, docs, lists[..|lists| - 1])[l.id := ListDoc(tok, l)]
  }

  function NamesFrom(lists: seq<ListView>): map<string, string> {
    if lists == [] then map[]
    else NamesFrom(lists[..|lists| - 1])[lists[|lists| - 1].id := lists[|lists| - 1].name]
  }

  function AddItems(tok: Tokenizer, docs: Docs, names: map<string, string>, items: seq<ItemView>): Docs {
    if items == [] then docs
    else
      var i := items[|items| - 1];
      AddItems(tok, docs, names, items[..|items| - 1])[i.id := ItemDoc(tok, i, names)]
  }

  lemma {:induction false} AddedLists(tok: Tokenizer, lists: seq<ListView>, c: Corpus)
    requires forall l :: l in lists ==> l.id in c.lists && c.lists[l.id] == l
    ensures AddLists(tok, map[], lists).Keys == NamesFrom(lists).Keys == ListIds(lists) <= c.lists.Keys
    ensures forall id :: id in ListIds(lists) ==>
              && AddLists(tok, map[], lists)[id] == ListDoc(tok, c.lists[id])
              && NamesFrom(lists)[id] == c.lists[id].name
  {
    if lists != [] {
      var before := lists[..|lists| - 1];
      AddedLists(tok, before, c);
      ListIdsMore(before, lists[|lists| - 1]);
      assert before + [lists[|lists| - 1]] == lists;
    }
  }

  lemma {:induction false} AddedItems(tok: Tokenizer, docs: Docs, names: map<string, string>,
                                      items: seq<ItemView>, c: Corpus)
    requires forall i :: i in items ==> i.id in c.items && c.items[i.id] == i
    ensures ItemIds(items) <= c.items.Keys
    ensures AddItems(tok, docs, names, items).Keys == docs.Keys + ItemIds(items)
    ensures forall id :: id in AddItems(tok, docs, names, items) ==>
              AddItems(tok, docs, names, items)[id] ==
              if id in ItemIds(items) then ItemDoc(tok, c.items[id], names) else docs[id]
  {
    if items != [] {
      var before := items[..|items| - 1];
      AddedItems(tok, docs, names, before, c);
      ItemIdsMore(before, items[|items| - 1]);
      assert before + [items[|items| - 1]] == items;
      assert items[|items| - 1] in items;
    }
  }

  lemma RebuiltNames(tok: Tokenizer, lists: seq<ListView>, c: Corpus)
    requires ListsAre(lists, c)
    ensures NamesFrom(lists) == c.Names()
  {
    AddedLists(tok, lists, c);
    assert NamesFrom(lists).Keys == c.Names().Keys;
  }

  lemma RebuiltDoc(tok: Tokenizer, lists: seq<ListView>, items: seq<ItemView>, c: Corpus, id: string)
    requires c.Valid() && ListsAre(lists, c) && ItemsAre(items, c)
    ensures var r := AddItems(tok, AddLists(tok, map[], lists), c.Names(), items);
            && (id in r <==> id in DocsOf(tok, c))
            && (id in r ==> r[id] == DocsOf(tok, c)[id])
  {
    AddedLists(tok, lists, c);
    AddedItems(tok, AddLists(tok, map[], lists), c.Names(), items, c);
  }

  lemma RebuiltDocs(tok: Tokenizer, lists: seq<ListView>, items: seq<ItemView>, c: Corpus)
    requires c.Valid() && ListsAre(lists, c) && ItemsAre(items, c)
    ensures NamesFrom(lists) == c.Names()
    ensures AddItems(tok, AddLists(tok, map[], lists), NamesFrom(lists), items) == DocsOf(tok, c)
  {
    RebuiltNames(tok, lists, c);
    var r := AddItems(tok, AddLists(tok, map[], lists), c.Names(), items);
    forall id ensures (id in r <==> id in DocsOf(tok, c)) && (id in r ==> r[id] == DocsOf(tok, c)[id]) {
      RebuiltDoc(tok, lists, items, c, id);
    }
    assert r.Keys == DocsOf(tok, c).Keys;
  }

  class SearchIndex {
    const tok: Tokenizer
    var docs: Docs
    var postings: Postings
    var itemsByList: Postings
    var names: map<string, string>
    var dirtyAll: bool
    var dirtyItems: set<string>
    var dirtyLists: set<string>

    /** Postings and list members are exactly the inverses of the docs, with
        no empty set left behind. */
    ghost predicate Exact()
      reads this
    {
      Shaped(docs) && postings == PostingsOf(docs) && itemsByList == ByListOf(docs)
    }

    constructor (tok: Tokenizer)
      ensures Exact() && docs == map[] && names == map[] && dirtyAll && this.tok == tok
    {
      this.tok := tok;
      docs, postings, itemsByList, names := map[], map[], map[], map[];
      dirtyAll, dirtyItems, dirtyLists := true, {}, {};
    }

    // ---- dirty tracking ----

    method MarkAllDirty()
      modifies this`dirtyAll, this`dirtyItems, this`dirtyLists
      ensures dirtyAll && dirtyItems == {} && dirtyLists == {}
    {
      dirtyAll, dirtyItems, dirtyLists := true, {}, {};
    }

    method NoteEvent(ev: AppEvent)
      modifies this`dirtyAll, this`dirtyItems, this`dirtyLists
      ensures dirtyAll == (old(dirtyAll) || ev.FullResync?)
      ensures !dirtyAll ==>
                && dirtyItems == old(dirtyItems) + (if TouchesItem(ev) then {ev.id} else {})
                && dirtyLists == old(dirtyLists) + (if TouchesList(ev) then {ev.id} else {})
    {
      if dirtyAll {
        return;
      }
      if ev.FullResync? {
        MarkAllDirty();
      } else if TouchesItem(ev) {
        dirtyItems := dirtyItems + {ev.id};
      } else if TouchesList(ev) {
        dirtyLists := dirtyLists + {ev.id};
      }
    }

    // ---- maintenance ----

    method DropPostings(id: string, tokens: set<Token>, ghost was: Postings, ghost dropped: set<Token>)
      requires postings == Without(was, id, dropped)
      modifies this`postings
      ensures postings == Without(was, id, dropped + tokens)
    {
      var rest := tokens;
      assert dropped + (tokens - rest) == dropped;
      while rest != {}
        invariant rest <= tokens && postings == Without(was, id, dropped + (tokens - rest))
      {
        var t :| t in rest;
        WithoutMore(was, id, dropped + (tokens - rest), t);
        if t in postings {
          var holders := postings[t] - {id};
          if holders == {} {
            postings := postings - {t};
          } else {
            postings := postings[t := holders];
          }
        }
        rest := rest - {t};
        assert dropped + (tokens - rest) == dropped + (tokens - (rest + {t})) + {t};
      }
      assert dropped + (tokens - rest) == dropped + tokens;
    }

    method Remove(id: string)
      requires Exact()
      modifies this`docs, this`postings, this`itemsByList
      ensures Exact() && docs == old(docs) - {id}
    {
      if id !in docs {
        return;
      }
      ghost var was := docs;
      var doc := docs[id];
      RemovedPostings(docs, id);
      RemovedByList(docs, id);
      docs := docs - {id};
      NoKeys(postings, id);
      DropPostings(id, doc.titleTokens, old(postings), {});
      DropPostings(id, doc.bodyTokens, old(postings), {} + doc.titleTokens);
      DropPostings(id, doc.contextTokens, old(postings), {} + doc.titleTokens + doc.bodyTokens);
      assert {} + doc.titleTokens + doc.bodyTokens + doc.contextTokens == doc.AllTokens();
      if doc.listId.Some? && doc.listId.value in itemsByList {
        var list := doc.listId.value;
        var members := itemsByList[list] - {id};
        if members == {} {
          itemsByList := itemsByList - {list};
        } else {
          itemsByList := itemsByList[list := members];
        }
      }
      DropsOneKey(old(itemsByList), id, doc);
    }

    static lemma DropsOneKey(p: Postings, id: string, doc: SearchDoc)
      requires doc.kind == ListKind ==> doc.listId == None
      ensures Without(p, id, ListOf(doc)) == if doc.listId.Some? then Drop(p, id, doc.listId.value) else p
    {
      NoKeys(p, id);
      if doc.listId.Some? {
        WithoutMore(p, id, {}, doc.listId.value);
        assert {} + {doc.listId.value} == ListOf(doc);
      }
    }

    method AddPostings(id: string, tokens: set<Token>, ghost was: Postings, ghost added: set<Token>)
      requires postings == With(was, id, added)
      modifies this`postings
      ensures postings == With(was, id, added + tokens)
    {
      var rest := tokens;
      assert added + (tokens - rest) == added;
      while rest != {}
        invariant rest <= tokens && postings == With(was, id, added + (tokens - rest))
      {
        var t :| t in rest;
        WithMore(was, id, added + (tokens - rest), t);
        postings := postings[t := (if t in postings then postings[t] else {}) + {id}];
        rest := rest - {t};
        assert added + (tokens - rest) == added + (tokens - (rest + {t})) + {t};
      }
      assert added + (tokens - rest) == added + tokens;
    }

    method InsertDoc(doc: SearchDoc)
      requires Exact() && doc.id !in docs && (doc.kind == ListKind ==> doc.listId == None)
      modifies this`docs, this`postings, this`itemsByList
      ensures Exact() && docs == old(docs)[doc.id := doc]
    {
      InsertedPostings(docs, doc);
      InsertedByList(docs, doc);
      NoKeys(postings, doc.id);
      AddPostings(doc.id, doc.titleTokens, old(postings), {});
      AddPostings(doc.id, doc.bodyTokens, old(postings), {} + doc.titleTokens);
      AddPostings(doc.id, doc.contextTokens, old(postings), {} + doc.titleTokens + doc.bodyTokens);
      assert {} + doc.titleTokens + doc.bodyTokens + doc.contextTokens == doc.AllTokens();
      NoKeys(itemsByList, doc.id);
      if doc.kind == ItemKind && doc.listId.Some? {
        var list := doc.listId.value;
        WithMore(itemsByList, doc.id, {}, list);
        assert {} + {list} == ListOf(doc);
        itemsByList := itemsByList[list := (if list in itemsByList then itemsByList[list] else {}) + {doc.id}];
      }
      docs := docs[doc.id := doc];
    }

    method IndexList(list: ListView)
      requires Exact()
      modifies this`docs, this`postings, this`itemsByList, this`names
      ensures Exact() && docs == old(docs)[list.id := ListDoc(tok, list)]
      ensures names == old(names)[list.id := list.name]
    {
      names := names[list.id := list.name];
      Remove(list.id);
      InsertDoc(ListDoc(tok, list));
    }

    method RemoveList(listId: string)
      requires Exact()
      modifies this`docs, this`postings, this`itemsByList, this`names
      ensures Exact() && docs == old(docs) - {listId} && names == old(names) - {listId}
    {
      Remove(listId);
      names := names - {listId};
    }

    method IndexItem(item: ItemView)
      requires Exact()
      modifies this`docs, this`postings, this`itemsByList
      ensures Exact() && docs == old(docs)[item.id := ItemDoc(tok, item, names)]
    {
      Remove(item.id);
      InsertDoc(ItemDoc(tok, item, names));
    }

    /** From scratch, lists first so items can read their names. */
    method Rebuild(lists: seq<ListView>, items: seq<ItemView>, ghost c: Corpus)
      requires c.Valid() && ListsAre(lists, c) && ItemsAre(items, c)
      modifies this`docs, this`postings, this`itemsByList, this`names
      ensures Exact() && docs == DocsOf(tok, c) && names == c.Names()
    {
      docs, postings, itemsByList, names := map[], map[], map[], map[];
      for k := 0 to |lists|
        invariant Exact() && docs == AddLists(tok, map[], lists[..k]) && names == NamesFrom(lists[..k])
      {
        assert lists[..k + 1][..k] == lists[..k];
        IndexList(lists[k]);
      }
      assert lists[..|lists|] == lists;
      ghost var base := docs;
      for k := 0 to |items|
        invariant Exact() && docs == AddItems(tok, base, names, items[..k]) && names == NamesFrom(lists)
      {
        assert items[..k + 1][..k] == items[..k];
        IndexItem(items[k]);
      }
      assert items[..|items|] == items;
      RebuiltDocs(tok, lists, items, c);
    }

    // ---- reconciling with the doc before a query ----

    method ReconcileItem(id: string, c: Corpus, ghost lists: set<string>, ghost items: set<string>)
      requires c.Valid() && Exact() && Covered(tok, docs, names, lists, items, c) && id in items && id !in lists
      modifies this`docs, this`postings, this`itemsByList
      ensures Exact() && Covered(tok, docs, names, lists, items - {id}, c)
    {
      ItemRead(tok, docs, names, lists, items, c, id);
      if id in c.items {
        IndexItem(c.items[id]);
      } else {
        Remove(id);
      }
    }

    /** Item ids indexed under a list, as a snapshot. */
    method ItemIdsInList(l: string) returns (ids: set<string>)
      requires Exact()
      ensures ids == Members(docs, l)
    {
      MembersIn(docs, l);
      ids := if l in itemsByList then itemsByList[l] else {};
    }

    method ReadList(l: string, c: Corpus, ghost lists: set<string>, ghost items: set<string>)
      requires c.Valid() && Exact() && Covered(tok, docs, names, lists, items, c) && l in lists
      modifies this`docs, this`postings, this`itemsByList, this`names
      ensures Exact() && Covered(tok, docs, names, lists - {l}, items + Members(docs, l), c)
      ensures Members(docs, l) !! lists
    {
      ListRead(tok, docs, names, lists, items, c, l);
      MembersAfter(tok, docs, lists, items, c, l);
      if l in c.lists {
        IndexList(c.lists[l]);
      } else {
        RemoveList(l);
      }
    }

    /** Items in the list are re-read: their context tokens follow its name. */
    method ReconcileList(l: string, c: Corpus, ghost lists: set<string>, ghost items: set<string>)
      requires c.Valid() && Exact() && Covered(tok, docs, names, lists, items, c) && l in lists
      modifies this`docs, this`postings, this`itemsByList, this`names
      ensures Exact() && Covered(tok, docs, names, lists - {l}, items, c)
    {
      ReadList(l, c, lists, items);
      var todo := ItemIdsInList(l);
      ReconcileItems(todo, c, lists - {l}, items);
    }

    method ReconcileItems(ids: set<string>, c: Corpus, ghost lists: set<string>, ghost items: set<string>)
      requires c.Valid() && Exact() && Covered(tok, docs, names, lists, items + ids, c) && ids !! lists
      modifies this`docs, this`postings, this`itemsByList
      ensures Exact() && Covered(tok, docs, names, lists, items, c)
    {
      var todo := ids;
      while todo != {}
        invariant Exact() && Covered(tok, docs, names, lists, items + todo, c)
        invariant todo <= ids
      {
        var id :| id in todo;
        ReconcileItem(id, c, lists, items + todo);
        StillCovered(tok, docs, names, lists, items, todo, c, id);
        todo := todo - {id};
      }
      assert items + {} == items;
    }

    /** Bring the index up to date: what `Doc::search` does first. */
    method Reconcile(c: Corpus, lists: seq<ListView>, items: seq<ItemView>)
      requires c.Valid() && ListsAre(lists, c) && ItemsAre(items, c) && Exact()
      requires !dirtyAll ==> Covered(tok, docs, names, dirtyLists, dirtyItems, c) && dirtyLists !! dirtyItems
      modifies this
      ensures Exact() && docs == DocsOf(tok, c) && names == c.Names()
      ensures !dirtyAll && dirtyItems == {} && dirtyLists == {}
    {
      var all, restLists, restItems := dirtyAll, dirtyLists, dirtyItems;
      dirtyAll, dirtyItems, dirtyLists := false, {}, {};
      if all {
        Rebuild(lists, items, c);
        return;
      }
      while restLists != {}
        invariant Exact() && Covered(tok, docs, names, restLists, restItems, c) && restLists !! restItems
        invariant !dirtyAll && dirtyItems == {} && dirtyLists == {}
      {
        var l :| l in restLists;
        ReconcileList(l, c, restLists, restItems);
        restLists := restLists - {l};
      }
      while restItems != {}
        invariant Exact() && Covered(tok, docs, names, {}, restItems, c)
        invariant !dirtyAll && dirtyItems == {} && dirtyLists == {}
      {
        var id :| id in restItems;
        ReconcileItem(id, c, {}, restItems);
        restItems := restItems - {id};
      }
      CleanIsRebuilt(tok, docs, names, c);
    }
  }
}
