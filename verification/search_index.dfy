/** The inverted search index: what it holds is a function of the docs
    indexed, whatever was indexed, reindexed and removed before. */
module SearchIndexing {
  import opened Wrappers

  type Token = string

  datatype Lifecycle = InProgress | Review | Todo | Backlog | Done | Cancelled | Binned
  datatype Kind = ItemKind | ListKind

  datatype ListView = ListView(id: string, name: string, createdAt: int)
  datatype ItemView = ItemView(
    id: string, text: string, notes: string, listId: string,
    lifecycle: Lifecycle, lifecycleAt: int, binnedAt: Option<int>)

  datatype SearchDoc = SearchDoc(
    id: string, kind: Kind, title: string, body: string, listId: Option<string>,
    lifecycle: Option<Lifecycle>, updatedAt: int,
    titleTokens: set<Token>, bodyTokens: set<Token>, contextTokens: set<Token>)
  {
    function AllTokens(): set<Token> { titleTokens + bodyTokens + contextTokens }
  }

  type Docs = map<string, SearchDoc>
  type Postings = map<string, set<string>>

  /** The tokenizer: folding and splitting text is not modelled. */
  type Tokenizer = string -> seq<Token>

  function TokenSet(tok: Tokenizer, text: string): set<Token> { set t | t in tok(text) }

  function NameOf(names: map<string, string>, listId: string): string {
    if listId in names then names[listId] else ""
  }

  function ItemDoc(tok: Tokenizer, item: ItemView, names: map<string, string>): SearchDoc {
    SearchDoc(item.id, ItemKind, item.text, item.notes,
              if item.listId == "" then None else Some(item.listId),
              Some(item.lifecycle),
              if item.binnedAt.Some? then item.binnedAt.value else item.lifecycleAt,
              TokenSet(tok, item.text), TokenSet(tok, item.notes), TokenSet(tok, NameOf(names, item.listId)))
  }

  function ListDoc(tok: Tokenizer, list: ListView): SearchDoc {
    SearchDoc(list.id, ListKind, list.name, "", None, None, list.createdAt, TokenSet(tok, list.name), {}, {})
  }

  // ---- what the two inverse maps should be ----

  function TokensOf(docs: Docs): set<Token> {
    set id, t | id in docs && t in docs[id].AllTokens() :: t
  }

  function Holders(docs: Docs, t: Token): set<string> {
    set id | id in docs && t in docs[id].AllTokens()
  }

  function PostingsOf(docs: Docs): Postings {
    map t | t in TokensOf(docs) :: Holders(docs, t)
  }

  function ListOf(doc: SearchDoc): set<string> {
    if doc.kind == ItemKind && doc.listId.Some? then {doc.listId.value} else {}
  }

  function ListsOf(docs: Docs): set<string> {
    set id, l | id in docs && l in ListOf(docs[id]) :: l
  }

  function Members(docs: Docs, l: string): set<string> {
    set id | id in docs && l in ListOf(docs[id])
  }

  function ByListOf(docs: Docs): Postings {
    map l | l in ListsOf(docs) :: Members(docs, l)
  }

  // ---- one id out of, or into, some keys ----

  function Without(p: Postings, id: string, keys: set<string>): Postings {
    map t | t in p && !(t in keys && p[t] <= {id}) :: if t in keys then p[t] - {id} else p[t]
  }

  function With(p: Postings, id: string, keys: set<string>): Postings {
    map t | t in p.Keys + keys ::
      (if t in p then p[t] else {}) + (if t in keys then {id} else {})
  }

  lemma HoldersIn(docs: Docs, t: Token)
    ensures t in TokensOf(docs) <==> Holders(docs, t) != {}
  {
    if t in TokensOf(docs) {
      var id :| id in docs && t in docs[id].AllTokens();
      assert id in Holders(docs, t);
    }
    if Holders(docs, t) != {} {
      var id :| id in Holders(docs, t);
      assert t in docs[id].AllTokens();
    }
  }

  lemma MembersIn(docs: Docs, l: string)
    ensures l in ListsOf(docs) <==> Members(docs, l) != {}
  {
    if l in ListsOf(docs) {
      var id :| id in docs && l in ListOf(docs[id]);
      assert id in Members(docs, l);
    }
    if Members(docs, l) != {} {
      var id :| id in Members(docs, l);
      assert l in ListOf(docs[id]);
    }
  }

  lemma RemovedPostings(docs: Docs, id: string)
    requires id in docs
    ensures Without(PostingsOf(docs), id, docs[id].AllTokens()) == PostingsOf(docs - {id})
  {
    var r := Without(PostingsOf(docs), id, docs[id].AllTokens());
    var s := PostingsOf(docs - {id});
    forall t ensures t in r <==> t in s {
      HoldersIn(docs, t);
      HoldersIn(docs - {id}, t);
      assert Holders(docs - {id}, t) == Holders(docs, t) - {id};
      if t in docs[id].AllTokens() {
        assert id in Holders(docs, t);
      } else {
        assert id !in Holders(docs, t);
      }
    }
    forall t | t in r ensures r[t] == s[t] {
      assert Holders(docs - {id}, t) == Holders(docs, t) - {id};
    }
  }

  lemma RemovedByList(docs: Docs, id: string)
    requires id in docs
    ensures Without(ByListOf(docs), id, ListOf(docs[id])) == ByListOf(docs - {id})
  {
    var r := Without(ByListOf(docs), id, ListOf(docs[id]));
    var s := ByListOf(docs - {id});
    forall l ensures l in r <==> l in s {
      MembersIn(docs, l);
      MembersIn(docs - {id}, l);
      assert Members(docs - {id}, l) == Members(docs, l) - {id};
      if l in ListOf(docs[id]) {
        assert id in Members(docs, l);
      } else {
        assert id !in Members(docs, l);
      }
    }
    forall l | l in r ensures r[l] == s[l] {
      assert Members(docs - {id}, l) == Members(docs, l) - {id};
    }
  }

  lemma InsertedPostings(docs: Docs, doc: SearchDoc)
    requires doc.id !in docs
    ensures With(PostingsOf(docs), doc.id, doc.AllTokens()) == PostingsOf(docs[doc.id := doc])
  {
    var all := docs[doc.id := doc];
    var r := With(PostingsOf(docs), doc.id, doc.AllTokens());
    var s := PostingsOf(all);
    forall t ensures Holders(all, t) == Holders(docs, t) + (if t in doc.AllTokens() then {doc.id} else {}) {}
    forall t ensures t in r <==> t in s {
      HoldersIn(docs, t);
      HoldersIn(all, t);
    }
    forall t | t in r ensures r[t] == s[t] {
      HoldersIn(docs, t);
    }
  }

  lemma InsertedByList(docs: Docs, doc: SearchDoc)
    requires doc.id !in docs
    ensures With(ByListOf(docs), doc.id, ListOf(doc)) == ByListOf(docs[doc.id := doc])
  {
    var all := docs[doc.id := doc];
    var r := With(ByListOf(docs), doc.id, ListOf(doc));
    var s := ByListOf(all);
    forall l ensures Members(all, l) == Members(docs, l) + (if l in ListOf(doc) then {doc.id} else {}) {}
    forall l ensures l in r <==> l in s {
      MembersIn(docs, l);
      MembersIn(all, l);
    }
    forall l | l in r ensures r[l] == s[l] {
      MembersIn(docs, l);
    }
  }

  /** Visiting one more key takes the id out of it, and the key out once no
      id is left. */
  lemma WithoutMore(p: Postings, id: string, keys: set<string>, t: string)
    ensures Without(p, id, keys + {t}) == Drop(Without(p, id, keys), id, t)
  {
    var r, e := Without(p, id, keys + {t}), Drop(Without(p, id, keys), id, t);
    forall u ensures u in r <==> u in e {
      if u == t && u in p {
        assert p[u] - {id} == {} <==> p[u] <= {id};
      }
    }
    assert r.Keys == e.Keys;
    forall u | u in r ensures r[u] == e[u] {}
  }

  function Drop(p: Postings, id: string, t: string): Postings {
    if t !in p then p else if p[t] - {id} == {} then p - {t} else p[t := p[t] - {id}]
  }

  lemma WithMore(p: Postings, id: string, keys: set<string>, t: string)
    ensures With(p, id, keys + {t}) == Put(With(p, id, keys), id, t)
  {
    var r, e := With(p, id, keys + {t}), Put(With(p, id, keys), id, t);
    assert r.Keys == e.Keys;
    forall u | u in r ensures r[u] == e[u] {}
  }

  lemma NoKeys(p: Postings, id: string)
    ensures Without(p, id, {}) == p == With(p, id, {})
  {
    assert Without(p, id, {}).Keys == p.Keys == With(p, id, {}).Keys;
    forall t | t in p ensures With(p, id, {})[t] == p[t] {}
  }

  function Put(p: Postings, id: string, t: string): Postings {
    p[t := (if t in p then p[t] else {}) + {id}]
  }

  // ---- what is in the doc ----

  /** The lists and items the index is built from. A list has a non-empty id,
      and no item's id is a list's. */
  datatype Corpus = Corpus(lists: map<string, ListView>, items: map<string, ItemView>) {
    ghost predicate Valid() {
      && (forall l :: l in lists ==> lists[l].id == l)
      && (forall i :: i in items ==> items[i].id == i)
      && "" !in lists && lists.Keys !! items.Keys
    }

    function Names(): map<string, string> { map l | l in lists :: lists[l].name }
  }

  /** The docs an index of the whole corpus holds. */
  function DocsOf(tok: Tokenizer, c: Corpus): Docs
    requires c.Valid()
  {
    map id | id in c.lists.Keys + c.items.Keys ::
      if id in c.lists then ListDoc(tok, c.lists[id]) else ItemDoc(tok, c.items[id], c.Names())
  }

  /** Each item and each list of the corpus has its doc, under its own id, and
      nothing else does. */
  lemma CorpusDocs(tok: Tokenizer, c: Corpus)
    requires c.Valid()
    ensures var docs := DocsOf(tok, c);
            && (forall i :: i in c.items ==> i in docs && docs[i] == ItemDoc(tok, c.items[i], c.Names()))
            && (forall l :: l in c.lists ==> l in docs && docs[l] == ListDoc(tok, c.lists[l]))
            && (forall id :: id in docs ==> id in c.items || id in c.lists)
            && (forall l :: l in c.Names() <==> l in c.lists)
            && (forall l :: l in c.lists ==> c.Names()[l] == c.lists[l].name)
  {}
}
