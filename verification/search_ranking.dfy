/** What a query is to answer, said of the docs and the tokens alone: which
    docs are hits, what each counts, and which of two comes first. */
module SearchRanking {
  import opened Wrappers
  import opened SearchIndexing
  import opened Text

  datatype SearchResult = SearchResult(
    id: string, kind: Kind, title: string, body: Option<string>, listId: Option<string>,
    lifecycle: Option<Lifecycle>, score: nat)

  /** A token of `tokens` starts with `prefix`. */
  predicate Begun(tokens: set<Token>, prefix: Token) {
    exists t :: t in tokens && |prefix| <= |t| && t[..|prefix|] == prefix
  }

  /** Every token but the last is in the doc, and the last begins one there. */
  predicate IsHit(doc: SearchDoc, tokens: seq<Token>)
    requires tokens != []
  {
    var all := doc.titleTokens + doc.bodyTokens + doc.contextTokens;
    (forall i :: 0 <= i < |tokens| - 1 ==> tokens[i] in all) && Begun(all, tokens[|tokens| - 1])
  }

  // ---- what a hit counts, by position in the query ----

  function InTitle(doc: SearchDoc, tokens: seq<Token>): set<nat> {
    set i: nat | i < |tokens| && tokens[i] in doc.titleTokens
  }

  /** Past the title, in the body; and past both. The last token is apart. */
  function InBody(doc: SearchDoc, exact: seq<Token>): set<nat> {
    set i: nat | i < |exact| && exact[i] in doc.bodyTokens && exact[i] !in doc.titleTokens
  }

  function InContext(doc: SearchDoc, exact: seq<Token>): set<nat> {
    set i: nat | i < |exact| && exact[i] !in doc.titleTokens && exact[i] !in doc.bodyTokens
  }

  function Count(b: bool): nat { if b then 1 else 0 }

  /** What decides the order, most important first: the tokens found in the
      title; whether the last only begins a title token; the tokens found no
      nearer than the body, and no nearer than the context, the last one
      counting where it begins a token; how live the doc is; its last change. */
  function KeyOf(doc: SearchDoc, tokens: seq<Token>): (key: seq<int>)
    requires tokens != []
    ensures |key| == 6
  {
    var exact, last := tokens[..|tokens| - 1], tokens[|tokens| - 1];
    [|InTitle(doc, tokens)|,
     Count(last !in doc.titleTokens && Begun(doc.titleTokens, last)),
     |InBody(doc, exact)| + Count(!Begun(doc.titleTokens, last) && Begun(doc.bodyTokens, last)),
     |InContext(doc, exact)| + Count(!Begun(doc.titleTokens, last) && !Begun(doc.bodyTokens, last)),
     Liveness(doc.lifecycle),
     doc.updatedAt]
  }

  /** In progress, in review, to do, in the backlog, closed either way, and
      binned or no item at all. */
  function Liveness(l: Option<Lifecycle>): nat {
    if l == Some(InProgress) then 5 else if l == Some(Review) then 4 else if l == Some(Todo) then 3
    else if l == Some(Backlog) then 2 else if l == Some(Done) || l == Some(Cancelled) then 1 else 0
  }

  function ScoreOfKey(key: seq<int>): int
    requires |key| == 6
  {
    key[0] * 10_000 + key[1] * 1_000 + key[2] * 100 + key[3] * 10 + key[4]
  }

  // ---- which of two comes first ----

  /** The first place they differ at has more in `a`. */
  predicate Exceeds(a: seq<int>, b: seq<int>)
    requires |a| == |b|
  {
    exists k :: 0 <= k < |a| && a[..k] == b[..k] && b[k] < a[k]
  }

  predicate Outranks(a: SearchDoc, b: SearchDoc, tokens: seq<Token>)
    requires tokens != []
  {
    var x, y := KeyOf(a, tokens), KeyOf(b, tokens);
    Exceeds(x, y) || (x == y && Less(a.id, b.id))
  }

  lemma ExceedsIsTotal(a: seq<int>, b: seq<int>)
    requires |a| == |b|
    ensures a == b || Exceeds(a, b) || Exceeds(b, a)
    ensures !(Exceeds(a, b) && Exceeds(b, a)) && !Exceeds(a, a)
  {
    FirstDifference(a, b);
    if k :| 0 <= k < |a| && a[..k] == b[..k] && b[k] < a[k] {
      ExceedsOneWay(a, b, k);
    }
    if k :| 0 <= k < |a| && b[..k] == a[..k] && a[k] < b[k] {
      ExceedsOneWay(b, a, k);
    }
  }

  lemma ExceedsOneWay(a: seq<int>, b: seq<int>, k: nat)
    requires |a| == |b| && k < |a| && a[..k] == b[..k] && b[k] < a[k]
    ensures !Exceeds(b, a)
  {
    forall m | 0 <= m < |a| ensures b[..m] != a[..m] || b[m] <= a[m] {
      if k < m {
        assert b[..m][k] != a[..m][k];
      } else if m < k {
        assert a[..k][m] == b[..k][m];
      }
    }
  }

  lemma {:induction false} FirstDifference(a: seq<int>, b: seq<int>)
    requires |a| == |b|
    ensures a == b || exists k :: 0 <= k < |a| && a[..k] == b[..k] && a[k] != b[k]
  {
    if a != [] {
      var n := |a| - 1;
      FirstDifference(a[..n], b[..n]);
      if a[..n] == b[..n] {
        assert a == a[..n] + [a[n]] && b == b[..n] + [b[n]];
      } else {
        var k :| 0 <= k < n && a[..n][..k] == b[..n][..k] && a[..n][k] != b[..n][k];
        assert a[..n][..k] == a[..k] && b[..n][..k] == b[..k];
      }
    }
  }

  /** Of two docs of different ids exactly one outranks the other. */
  lemma OneOutranks(a: SearchDoc, b: SearchDoc, tokens: seq<Token>)
    requires tokens != [] && a.id != b.id
    ensures Outranks(a, b, tokens) <==> !Outranks(b, a, tokens)
  {
    ExceedsIsTotal(KeyOf(a, tokens), KeyOf(b, tokens));
    LessIsTotal(a.id, b.id);
  }

  /** More of the query in the title decides, whatever else there is. */
  lemma TitleDecides(a: SearchDoc, b: SearchDoc, tokens: seq<Token>)
    requires tokens != [] && |InTitle(b, tokens)| < |InTitle(a, tokens)|
    ensures Outranks(a, b, tokens) && !Outranks(b, a, tokens)
  {
    var x, y := KeyOf(a, tokens), KeyOf(b, tokens);
    assert x[..0] == y[..0];
    ExceedsIsTotal(x, y);
  }

  // ---- an answer ----

  predicate Shows(r: SearchResult, doc: SearchDoc, tokens: seq<Token>)
    requires tokens != []
  {
    r == SearchResult(doc.id, doc.kind, doc.title, if doc.body == "" then None else Some(doc.body), doc.listId,
                      doc.lifecycle, r.score)
    && r.score == ScoreOfKey(KeyOf(doc, tokens))
  }

  /** `results` are hits, each shown as it is, each outranking all after it;
      a hit left out is outranked by all of them, and there is one left out
      only if there are `limit` of them. */
  ghost predicate Ranked(results: seq<SearchResult>, docs: Docs, tokens: seq<Token>, limit: nat) {
    if tokens == [] then results == []
    else
      && |results| <= limit
      && (forall i :: 0 <= i < |results| ==>
            var id := results[i].id;
            id in docs && IsHit(docs[id], tokens) && Shows(results[i], docs[id], tokens))
      && (forall i, j :: 0 <= i < j < |results| ==> Outranks(docs[results[i].id], docs[results[j].id], tokens))
      && (forall id :: id in docs && IsHit(docs[id], tokens) ==> Found(results, docs, id, tokens, limit))
  }

  ghost predicate Found(results: seq<SearchResult>, docs: Docs, id: string, tokens: seq<Token>, limit: nat)
    requires tokens != [] && id in docs && forall i :: 0 <= i < |results| ==> results[i].id in docs
  {
    || (exists i :: 0 <= i < |results| && results[i].id == id)
    || (|results| == limit
        && forall i :: 0 <= i < |results| ==> Outranks(docs[results[i].id], docs[id], tokens))
  }

  // ---- what is searched of an item and of a list ----

  predicate Within(texts: seq<seq<Token>>, t: Token) { exists k :: 0 <= k < |texts| && t in texts[k] }

  /** Every token but the last is among the tokens of the texts, and the last
      begins one of them. */
  predicate IsHitOf(texts: seq<seq<Token>>, tokens: seq<Token>)
    requires tokens != []
  {
    && (forall i :: 0 <= i < |tokens| - 1 ==> Within(texts, tokens[i]))
    && exists k, j :: 0 <= k < |texts| && 0 <= j < |texts[k]|
                      && |tokens[|tokens| - 1]| <= |texts[k][j]|
                      && texts[k][j][..|tokens[|tokens| - 1]|] == tokens[|tokens| - 1]
  }

  lemma TextsAreHit(texts: seq<seq<Token>>, all: set<Token>, tokens: seq<Token>)
    requires tokens != [] && forall t :: t in all <==> Within(texts, t)
    ensures IsHitOf(texts, tokens) <==>
            (forall i :: 0 <= i < |tokens| - 1 ==> tokens[i] in all) && Begun(all, tokens[|tokens| - 1])
  {
    var last := tokens[|tokens| - 1];
    if t :| t in all && |last| <= |t| && t[..|last|] == last {
      var k :| 0 <= k < |texts| && t in texts[k];
      var j :| 0 <= j < |texts[k]| && texts[k][j] == t;
    }
    if k, j :| 0 <= k < |texts| && 0 <= j < |texts[k]| && |last| <= |texts[k][j]| && texts[k][j][..|last|] == last {
      assert texts[k][j] in texts[k] && Within(texts, texts[k][j]);
    }
  }

  /** An item answers to its text, its notes and the name of its list; its
      change is when it was binned, or else when its lifecycle last moved. */
  lemma ItemIsHit(tok: Tokenizer, item: ItemView, names: map<string, string>, tokens: seq<Token>)
    requires tokens != []
    ensures var name := if item.listId in names then names[item.listId] else "";
            var doc := ItemDoc(tok, item, names);
            && (IsHit(doc, tokens) <==> IsHitOf([tok(item.text), tok(item.notes), tok(name)], tokens))
            && (forall t :: t in doc.titleTokens <==> t in tok(item.text))
            && (forall t :: t in doc.bodyTokens <==> t in tok(item.notes))
            && doc.updatedAt == (if item.binnedAt == None then item.lifecycleAt else item.binnedAt.value)
            && doc.id == item.id && doc.kind == ItemKind && doc.title == item.text && doc.body == item.notes
            && doc.lifecycle == Some(item.lifecycle)
            && doc.listId == (if item.listId == "" then None else Some(item.listId))
  {
    var name := if item.listId in names then names[item.listId] else "";
    var doc := ItemDoc(tok, item, names);
    var texts := [tok(item.text), tok(item.notes), tok(name)];
    forall t ensures t in doc.titleTokens + doc.bodyTokens + doc.contextTokens <==> Within(texts, t) {
      assert texts[0] == tok(item.text) && texts[1] == tok(item.notes) && texts[2] == tok(name);
    }
    TextsAreHit(texts, doc.titleTokens + doc.bodyTokens + doc.contextTokens, tokens);
  }

  /** A list answers to its name. */
  lemma ListIsHit(tok: Tokenizer, list: ListView, tokens: seq<Token>)
    requires tokens != []
    ensures var doc := ListDoc(tok, list);
            && (IsHit(doc, tokens) <==> IsHitOf([tok(list.name)], tokens))
            && (forall t :: t in doc.titleTokens <==> t in tok(list.name))
            && doc.id == list.id && doc.kind == ListKind && doc.title == list.name && doc.body == ""
            && doc.lifecycle == None && doc.listId == None && doc.updatedAt == list.createdAt
  {
    var doc := ListDoc(tok, list);
    var texts := [tok(list.name)];
    forall t ensures t in doc.titleTokens + doc.bodyTokens + doc.contextTokens <==> Within(texts, t) {
      assert texts[0] == tok(list.name);
    }
    TextsAreHit(texts, doc.titleTokens + doc.bodyTokens + doc.contextTokens, tokens);
  }
}
