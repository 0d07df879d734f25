/** Ranked queries: what the index answers is what scanning every doc would. */
module SearchQuery {
  import opened Wrappers
  import opened SearchIndexing
  import opened SearchObject
  import opened SearchRanking
  import opened Text

  // ---- scores ----

  datatype Scored = Scored(doc: SearchDoc, titleExact: nat, titlePrefix: nat, bodyHits: nat, contextHits: nat,
                           score: nat)

  function LifecycleRank(l: Option<Lifecycle>): nat {
    match l
    case None => 0
    case Some(InProgress) => 5
    case Some(Review) => 4
    case Some(Todo) => 3
    case Some(Backlog) => 2
    case Some(Done) => 1
    case Some(Cancelled) => 1
    case Some(Binned) => 0
  }

  predicate AnyStartsWith(tokens: set<Token>, prefix: Token) {
    exists t :: t in tokens && prefix <= t
  }

  /** What a query asks of a doc: every exact token, and one token the last
      one begins. */
  predicate Matches(doc: SearchDoc, exact: seq<Token>, last: Token) {
    && (forall t :: t in exact ==> t in doc.AllTokens())
    && AnyStartsWith(doc.AllTokens(), last)
  }

  /** How many of the tokens fall to `here` but not to `before`. */
  function Falls(tokens: seq<Token>, here: set<Token>, before: set<Token>): nat {
    if tokens == [] then 0
    else
      var t := tokens[|tokens| - 1];
      Falls(tokens[..|tokens| - 1], here, before) + if t in here && t !in before then 1 else 0
  }

  datatype Bucket = TitleExact | TitlePrefix | BodyHit | ContextHit

  /** Where the last token counts: the title first, an exact token of it
      before a prefix; then the body, then the context. */
  function LastBucket(doc: SearchDoc, last: Token): Bucket {
    if last in doc.titleTokens then TitleExact
    else if AnyStartsWith(doc.titleTokens, last) then TitlePrefix
    else if AnyStartsWith(doc.bodyTokens, last) then BodyHit
    else ContextHit
  }

  function One(b: bool): nat { if b then 1 else 0 }

  function ScoreOf(doc: SearchDoc, exact: seq<Token>, last: Token): Scored {
    var b := LastBucket(doc, last);
    var te := Falls(exact, doc.titleTokens, {}) + One(b == TitleExact);
    var tp := One(b == TitlePrefix);
    var bh := Falls(exact, doc.bodyTokens, doc.titleTokens) + One(b == BodyHit);
    var ch := Falls(exact, doc.contextTokens, doc.titleTokens + doc.bodyTokens) + One(b == ContextHit);
    Scored(doc, te, tp, bh, ch, te * 10_000 + tp * 1_000 + bh * 100 + ch * 10 + LifecycleRank(doc.lifecycle))
  }

  /** Every query token of a matching doc counts once. */
  lemma {:induction false} TokensCountOnce(doc: SearchDoc, exact: seq<Token>, last: Token)
    requires Matches(doc, exact, last)
    ensures var s := ScoreOf(doc, exact, last);
            s.titleExact + s.titlePrefix + s.bodyHits + s.contextHits == |exact| + 1
  {
    if exact != [] {
      TokensCountOnce(doc, exact[..|exact| - 1], last);
      assert exact[|exact| - 1] in exact;
    }
  }

  method ScoreDoc(doc: SearchDoc, exact: seq<Token>, last: Token) returns (r: Option<Scored>)
    ensures r == if Matches(doc, exact, last) then Some(ScoreOf(doc, exact, last)) else None
  {
    var te, tp, bh, ch := 0, 0, 0, 0;
    for i := 0 to |exact|
      invariant forall t :: t in exact[..i] ==> t in doc.AllTokens()
      invariant te == Falls(exact[..i], doc.titleTokens, {})
      invariant bh == Falls(exact[..i], doc.bodyTokens, doc.titleTokens)
      invariant ch == Falls(exact[..i], doc.contextTokens, doc.titleTokens + doc.bodyTokens)
    {
      var t := exact[i];
      assert exact[..i + 1][..i] == exact[..i];
      assert exact[..i + 1] == exact[..i] + [t];
      if t in doc.titleTokens {
        te := te + 1;
      } else if t in doc.bodyTokens {
        bh := bh + 1;
      } else if t in doc.contextTokens {
        ch := ch + 1;
      } else {
        assert t in exact && t !in doc.AllTokens();
        return None;
      }
    }
    assert exact[..|exact|] == exact;
    if last in doc.titleTokens {
      te := te + 1;
    } else if AnyStartsWith(doc.titleTokens, last) {
      tp := tp + 1;
    } else if last in doc.bodyTokens || AnyStartsWith(doc.bodyTokens, last) {
      bh := bh + 1;
    } else if last in doc.contextTokens || AnyStartsWith(doc.contextTokens, last) {
      ch := ch + 1;
    } else {
      return None;
    }
    r := Some(Scored(doc, te, tp, bh, ch,
        te * 10_000 + tp * 1_000 + bh * 100 + ch * 10 + LifecycleRank(doc.lifecycle)));
  }

  // ---- the order of hits ----

  /** More exact title tokens first, then title prefixes, body hits, context
      hits; then the livelier lifecycle, the later change, the smaller id. */
  predicate Before(a: Scored, b: Scored) {
    if a.titleExact != b.titleExact then b.titleExact < a.titleExact
    else if a.titlePrefix != b.titlePrefix then b.titlePrefix < a.titlePrefix
    else if a.bodyHits != b.bodyHits then b.bodyHits < a.bodyHits
    else if a.contextHits != b.contextHits then b.contextHits < a.contextHits
    else
      var ra, rb := LifecycleRank(a.doc.lifecycle), LifecycleRank(b.doc.lifecycle);
      if ra != rb then rb < ra
      else if a.doc.updatedAt != b.doc.updatedAt then b.doc.updatedAt < a.doc.updatedAt
      else Less(a.doc.id, b.doc.id)
  }

  /** A strict total order on hits of different ids. */
  lemma BeforeIsTotal(a: Scored, b: Scored)
    ensures a.doc.id != b.doc.id ==> Before(a, b) || Before(b, a)
    ensures !(Before(a, b) && Before(b, a)) && !Before(a, a)
  {
    LessIsTotal(a.doc.id, b.doc.id);
    LessIsTotal(a.doc.id, a.doc.id);
  }

  lemma BeforeIsTransitive(a: Scored, b: Scored, c: Scored)
    requires Before(a, b) && Before(b, c)
    ensures Before(a, c)
  {
    if Less(a.doc.id, b.doc.id) && Less(b.doc.id, c.doc.id) {
      LessIsTransitive(a.doc.id, b.doc.id, c.doc.id);
    }
  }

  ghost predicate InOrder(r: seq<Scored>) {
    forall i, j :: 0 <= i < j < |r| ==> Before(r[i], r[j])
  }

  /** The brute-force answer, before it is cut: the hits are exactly the docs
      that match, each with its score, best first. */
  ghost predicate IsRanking(r: seq<Scored>, docs: Docs, exact: seq<Token>, last: Token) {
    && InOrder(r)
    && (forall s :: s in r ==>
          s.doc.id in docs && docs[s.doc.id] == s.doc && Matches(s.doc, exact, last)
              && s == ScoreOf(s.doc, exact, last))
    && (forall id :: id in docs && Matches(docs[id], exact, last) ==> ScoreOf(docs[id], exact, last) in r)
  }

  lemma {:induction false} OrderedAlike(a: seq<Scored>, b: seq<Scored>)
    requires InOrder(a) && InOrder(b)
    requires forall s :: s in a <==> s in b
    ensures a == b
  {
    assert a != [] ==> a[0] in b;
    assert b != [] ==> b[0] in a;
    if a != [] && b != [] {
      assert a[0] in a && b[0] in b;
      assert a[0] in b && b[0] in a;
      var j :| 0 <= j < |b| && b[j] == a[0];
      var i :| 0 <= i < |a| && a[i] == b[0];
      BeforeIsTotal(a[0], b[0]);
      assert a[0] == b[0];
      forall s ensures s in a[1..] <==> s in b[1..] {
        RestIn(a, s);
        RestIn(b, s);
      }
      OrderedAlike(a[1..], b[1..]);
    }
  }

  lemma RestIn(a: seq<Scored>, s: Scored)
    requires InOrder(a) && a != []
    ensures s in a[1..] <==> s in a && s != a[0]
  {
    BeforeIsTotal(a[0], a[0]);
    if s in a[1..] {
      var k :| 0 <= k < |a| - 1 && a[1..][k] == s;
      assert a[k + 1] == s;
    }
  }

  /** There is one ranking, however the hash sets were walked. */
  lemma RankingIsUnique(a: seq<Scored>, b: seq<Scored>, docs: Docs, exact: seq<Token>, last: Token)
    requires IsRanking(a, docs, exact, last) && IsRanking(b, docs, exact, last)
    ensures a == b
  {
    forall s ensures s in a <==> s in b {}
    OrderedAlike(a, b);
  }

  // ---- the query ----

  function Render(s: Scored): SearchResult {
    SearchResult(s.doc.id, s.doc.kind, s.doc.title, if s.doc.body == "" then None else Some(s.doc.body),
                 s.doc.listId, s.doc.lifecycle, s.score)
  }

  function RenderAll(r: seq<Scored>): (o: seq<SearchResult>)
    ensures |o| == |r| && forall i :: 0 <= i < |r| ==> o[i] == Render(r[i])
  {
    if r == [] then [] else [Render(r[0])] + RenderAll(r[1..])
  }

  /** The first `limit` of the ranking; nothing for a query of no tokens. */
  ghost predicate Answers(results: seq<SearchResult>, docs: Docs, tokens: seq<Token>, limit: nat) {
    if tokens == [] then results == []
    else
      exists all :: IsRanking(all, docs, tokens[..|tokens| - 1], tokens[|tokens| - 1])
                    && results == RenderAll(all[..Min(limit, |all|)])
  }

  // ---- the ranking, from the docs ----

  lemma StartsIsBegun(tokens: set<Token>, prefix: Token)
    ensures AnyStartsWith(tokens, prefix) <==> Begun(tokens, prefix)
  {
    if t :| t in tokens && prefix <= t {
      assert t[..|prefix|] == prefix;
    }
  }

  lemma MatchesIsHit(doc: SearchDoc, tokens: seq<Token>)
    requires tokens != []
    ensures Matches(doc, tokens[..|tokens| - 1], tokens[|tokens| - 1]) <==> IsHit(doc, tokens)
  {
    var exact := tokens[..|tokens| - 1];
    StartsIsBegun(doc.AllTokens(), tokens[|tokens| - 1]);
    forall i | 0 <= i < |tokens| - 1 ensures exact[i] == tokens[i] && tokens[i] in exact {}
  }

  /** Where they fall, by position. */
  function Places(tokens: seq<Token>, here: set<Token>, before: set<Token>): set<nat> {
    set i: nat | i < |tokens| && tokens[i] in here && tokens[i] !in before
  }

  lemma {:induction false} FallsIsCount(tokens: seq<Token>, here: set<Token>, before: set<Token>)
    ensures Falls(tokens, here, before) == |Places(tokens, here, before)|
  {
    if tokens != [] {
      var n := |tokens| - 1;
      FallsIsCount(tokens[..n], here, before);
      var more := if tokens[n] in here && tokens[n] !in before then {n} else {};
      assert Places(tokens, here, before) == Places(tokens[..n], here, before) + more;
    }
  }

  lemma TitleCount(doc: SearchDoc, tokens: seq<Token>)
    requires tokens != []
    ensures var exact, last := tokens[..|tokens| - 1], tokens[|tokens| - 1];
            Falls(exact, doc.titleTokens, {}) + One(last in doc.titleTokens) == |InTitle(doc, tokens)|
  {
    var n := |tokens| - 1;
    FallsIsCount(tokens[..n], doc.titleTokens, {});
    var more := if tokens[n] in doc.titleTokens then {n} else {};
    assert InTitle(doc, tokens) == Places(tokens[..n], doc.titleTokens, {}) + more;
  }

  lemma BodyCounts(doc: SearchDoc, exact: seq<Token>)
    ensures Falls(exact, doc.bodyTokens, doc.titleTokens) == |InBody(doc, exact)|
    ensures (forall t :: t in exact ==> t in doc.AllTokens()) ==>
              Falls(exact, doc.contextTokens, doc.titleTokens + doc.bodyTokens) == |InContext(doc, exact)|
  {
    FallsIsCount(exact, doc.bodyTokens, doc.titleTokens);
    FallsIsCount(exact, doc.contextTokens, doc.titleTokens + doc.bodyTokens);
    assert InBody(doc, exact) == Places(exact, doc.bodyTokens, doc.titleTokens);
    if forall t :: t in exact ==> t in doc.AllTokens() {
      forall i | 0 <= i < |exact| ensures exact[i] in doc.AllTokens() {
        assert exact[i] in exact;
      }
      assert InContext(doc, exact) == Places(exact, doc.contextTokens, doc.titleTokens + doc.bodyTokens);
    }
  }

  function Parts(s: Scored): seq<int> {
    [s.titleExact, s.titlePrefix, s.bodyHits, s.contextHits, LifecycleRank(s.doc.lifecycle), s.doc.updatedAt]
  }

  /** A score is made of the counts that decide the order. */
  lemma ScoreIsKey(doc: SearchDoc, tokens: seq<Token>)
    requires tokens != [] && IsHit(doc, tokens)
    ensures var s := ScoreOf(doc, tokens[..|tokens| - 1], tokens[|tokens| - 1]);
            s.doc == doc && Parts(s) == KeyOf(doc, tokens) && s.score == ScoreOfKey(KeyOf(doc, tokens))
  {
    var exact, last := tokens[..|tokens| - 1], tokens[|tokens| - 1];
    MatchesIsHit(doc, tokens);
    TitleCount(doc, tokens);
    BodyCounts(doc, exact);
    StartsIsBegun(doc.titleTokens, last);
    StartsIsBegun(doc.bodyTokens, last);
    if last in doc.titleTokens { assert last[..|last|] == last && Begun(doc.titleTokens, last); }
  }

  lemma {:induction false} PartsOrder(x: seq<int>, y: seq<int>, n: nat)
    requires |x| == |y| && n < |x| && x[..n] == y[..n] && x[n] != y[n]
    ensures Exceeds(x, y) <==> y[n] < x[n]
  {
    if y[n] < x[n] {
      assert Exceeds(x, y);
    } else {
      ExceedsOneWay(y, x, n);
    }
  }

  /** The comparison is the order of those counts, the first to differ
      deciding, and of the ids where none does. */
  lemma BeforeIsOutranks(a: SearchDoc, b: SearchDoc, tokens: seq<Token>)
    requires tokens != [] && IsHit(a, tokens) && IsHit(b, tokens)
    ensures var exact, last := tokens[..|tokens| - 1], tokens[|tokens| - 1];
            Before(ScoreOf(a, exact, last), ScoreOf(b, exact, last)) <==> Outranks(a, b, tokens)
  {
    ScoreIsKey(a, tokens);
    ScoreIsKey(b, tokens);
    var x, y := KeyOf(a, tokens), KeyOf(b, tokens);
    if n :| 0 <= n < 6 && x[..n] == y[..n] && x[n] != y[n] {
      PartsOrder(x, y, n);
      assert forall m :: 0 <= m < n ==> x[..n][m] == y[..n][m];
    } else {
      FirstDifference(x, y);
      ExceedsIsTotal(x, y);
    }
  }

  /** One of the ranking: a hit, with the score shown. */
  ghost predicate Hit(s: Scored, docs: Docs, tokens: seq<Token>)
    requires tokens != []
  {
    && s.doc.id in docs && docs[s.doc.id] == s.doc && IsHit(s.doc, tokens) && Shows(Render(s), s.doc, tokens)
    && s == ScoreOf(s.doc, tokens[..|tokens| - 1], tokens[|tokens| - 1])
  }

  lemma RankedAreHits(all: seq<Scored>, docs: Docs, tokens: seq<Token>)
    requires tokens != [] && IsRanking(all, docs, tokens[..|tokens| - 1], tokens[|tokens| - 1])
    ensures forall i :: 0 <= i < |all| ==> Hit(all[i], docs, tokens)
    ensures forall i, j :: 0 <= i < j < |all| ==> Outranks(all[i].doc, all[j].doc, tokens)
  {
    forall i | 0 <= i < |all| ensures Hit(all[i], docs, tokens) {
      assert all[i] in all;
      MatchesIsHit(all[i].doc, tokens);
      ScoreIsKey(all[i].doc, tokens);
    }
    forall i, j | 0 <= i < j < |all| ensures Outranks(all[i].doc, all[j].doc, tokens) {
      assert Hit(all[i], docs, tokens) && Hit(all[j], docs, tokens) && Before(all[i], all[j]);
      BeforeIsOutranks(all[i].doc, all[j].doc, tokens);
    }
  }

  lemma RankingFinds(all: seq<Scored>, docs: Docs, tokens: seq<Token>, id: string) returns (k: nat)
    requires tokens != [] && IsRanking(all, docs, tokens[..|tokens| - 1], tokens[|tokens| - 1])
    requires id in docs && IsHit(docs[id], tokens)
    ensures k < |all| && all[k].doc == docs[id]
  {
    MatchesIsHit(docs[id], tokens);
    k :| 0 <= k < |all| && all[k] == ScoreOf(docs[id], tokens[..|tokens| - 1], tokens[|tokens| - 1]);
  }

  lemma RankingRanks(all: seq<Scored>, docs: Docs, tokens: seq<Token>, limit: nat)
    requires tokens != [] && IsRanking(all, docs, tokens[..|tokens| - 1], tokens[|tokens| - 1])
    requires forall id :: id in docs ==> docs[id].id == id
    ensures Ranked(RenderAll(all[..Min(limit, |all|)]), docs, tokens, limit)
  {
    RankedAreHits(all, docs, tokens);
    var n := Min(limit, |all|);
    var results := RenderAll(all[..n]);
    forall i | 0 <= i < n ensures results[i] == Render(all[i]) && Hit(all[i], docs, tokens) {}
    forall id | id in docs && IsHit(docs[id], tokens) ensures Found(results, docs, id, tokens, limit) {
      var k := RankingFinds(all, docs, tokens, id);
      if k < n { assert results[k].id == id; }
    }
  }

  method Intersect(a: Option<set<string>>, b: set<string>) returns (r: set<string>)
    ensures r == if a == None then b else a.value * b
  {
    if a == None {
      return b;
    }
    var smaller, larger := a.value, b;
    if |b| < |a.value| {
      smaller, larger := b, a.value;
    }
    r := set id | id in smaller && id in larger;
  }

  /** Docs holding a token that starts with `prefix`, by scanning the tokens. */
  method PrefixCandidates(index: SearchIndex, prefix: Token) returns (out: set<string>)
    requires index.Exact()
    ensures out == set id | id in index.docs && AnyStartsWith(index.docs[id].AllTokens(), prefix)
  {
    out := {};
    var rest := index.postings.Keys;
    while rest != {}
      invariant rest <= index.postings.Keys
      invariant out == set id, t | t in index.postings.Keys - rest && prefix <= t && id in index.postings[t] :: id
    {
      var t :| t in rest;
      if prefix <= t {
        out := out + index.postings[t];
      }
      rest := rest - {t};
    }
    PrefixHolders(index.docs, prefix);
  }

  lemma PrefixHolders(docs: Docs, prefix: Token)
    ensures (set id, t | t in PostingsOf(docs).Keys && prefix <= t && id in PostingsOf(docs)[t] :: id) ==
            set id | id in docs && AnyStartsWith(docs[id].AllTokens(), prefix)
  {
    forall id | id in docs && AnyStartsWith(docs[id].AllTokens(), prefix)
      ensures exists t :: t in PostingsOf(docs).Keys && prefix <= t && id in PostingsOf(docs)[t]
    {
      var t :| t in docs[id].AllTokens() && prefix <= t;
      assert t in TokensOf(docs);
      assert t in PostingsOf(docs).Keys && id in PostingsOf(docs)[t];
    }
  }

  ghost function MatchingIds(docs: Docs, exact: seq<Token>, last: Token): set<string> {
    set id | id in docs && Matches(docs[id], exact, last)
  }

  ghost function HoldAll(docs: Docs, exact: seq<Token>): set<string> {
    set id | id in docs && forall t :: t in exact ==> t in docs[id].AllTokens()
  }

  lemma HoldAllMore(docs: Docs, exact: seq<Token>, t: Token)
    ensures HoldAll(docs, exact + [t]) == HoldAll(docs, exact) * Holders(docs, t)
  {}

  /** Ids holding every exact token; `None` when there is none to hold. */
  method ExactCandidates(index: SearchIndex, exact: seq<Token>) returns (candidates: Option<set<string>>)
    requires index.Exact()
    ensures candidates == None <==> exact == []
    ensures candidates.Some? ==> candidates.value == HoldAll(index.docs, exact)
  {
    candidates := None;
    assert HoldAll(index.docs, exact[..0]) == index.docs.Keys;
    for i := 0 to |exact|
      invariant candidates == None <==> i == 0
      invariant candidates.Some? ==> candidates.value == HoldAll(index.docs, exact[..i])
    {
      var t := exact[i];
      HoldersIn(index.docs, t);
      HoldAllMore(index.docs, exact[..i], t);
      assert exact[..i + 1] == exact[..i] + [t];
      assert Holders(index.docs, t) <= index.docs.Keys;
      if t !in index.postings {
        NoneHold(index.docs, exact, t);
        return Some({});
      }
      var both := Intersect(candidates, index.postings[t]);
      candidates := Some(both);
      if both == {} {
        FewerHold(index.docs, exact, i + 1);
        return;
      }
    }
    assert exact[..|exact|] == exact;
  }

  lemma NoneHold(docs: Docs, exact: seq<Token>, t: Token)
    requires t in exact && Holders(docs, t) == {}
    ensures HoldAll(docs, exact) == {}
  {
    assert HoldAll(docs, exact) <= Holders(docs, t);
  }

  lemma FewerHold(docs: Docs, exact: seq<Token>, i: nat)
    requires i <= |exact| && HoldAll(docs, exact[..i]) == {}
    ensures HoldAll(docs, exact) == {}
  {
    assert HoldAll(docs, exact) <= HoldAll(docs, exact[..i]);
  }

  /** Score each candidate, in any order; none is turned away. */
  method ScoreAll(index: SearchIndex, candidates: set<string>, exact: seq<Token>, last: Token)
    returns (scored: seq<Scored>)
    requires index.Exact()
    requires candidates == MatchingIds(index.docs, exact, last)
    ensures |scored| == |candidates|
    ensures forall i, j :: 0 <= i < j < |scored| ==> scored[i].doc.id != scored[j].doc.id
    ensures forall s :: s in scored ==>
              s.doc.id in candidates && index.docs[s.doc.id] == s.doc && s == ScoreOf(s.doc, exact, last)
    ensures forall id :: id in candidates ==> ScoreOf(index.docs[id], exact, last) in scored
  {
    scored := [];
    var rest := candidates;
    while rest != {}
      invariant rest <= candidates && |scored| + |rest| == |candidates|
      invariant forall i, j :: 0 <= i < j < |scored| ==> scored[i].doc.id != scored[j].doc.id
      invariant forall s :: s in scored ==>
        s.doc.id in candidates - rest && index.docs[s.doc.id] == s.doc && s == ScoreOf(s.doc, exact, last)
      invariant forall id :: id in candidates - rest ==> ScoreOf(index.docs[id], exact, last) in scored
    {
      var id :| id in rest;
      var s := ScoreDoc(index.docs[id], exact, last);
      scored := scored + [s.value];
      rest := rest - {id};
    }
  }

  /** Sort by the comparison above. */
  method SortHits(scored: seq<Scored>) returns (r: seq<Scored>)
    requires forall i, j :: 0 <= i < j < |scored| ==> scored[i].doc.id != scored[j].doc.id
    ensures InOrder(r) && forall s :: s in r <==> s in scored
  {
    r := [];
    for i := 0 to |scored|
      invariant InOrder(r) && forall s :: s in r <==> s in scored[..i]
    {
      assert scored[..i + 1] == scored[..i] + [scored[i]];
      r := InsertHit(r, scored[i]);
    }
    assert scored[..|scored|] == scored;
  }

  method InsertHit(r: seq<Scored>, s: Scored) returns (o: seq<Scored>)
    requires InOrder(r) && forall x :: x in r ==> x.doc.id != s.doc.id
    ensures InOrder(o) && forall x :: x in o <==> x in r || x == s
  {
    var k := 0;
    while k < |r| && Before(r[k], s)
      invariant k <= |r| && forall i :: 0 <= i < k ==> Before(r[i], s)
    {
      k := k + 1;
    }
    o := r[..k] + [s] + r[k..];
    forall j | k <= j < |r| ensures Before(s, r[j]) {
      assert r[k] in r;
      BeforeIsTotal(r[k], s);
      if k < j { BeforeIsTransitive(s, r[k], r[j]); }
    }
    assert forall x :: x in o <==> x in r[..k] || x == s || x in r[k..];
    assert r == r[..k] + r[k..];
  }

  /** No candidate, no hit. */
  lemma NoHits(docs: Docs, exact: seq<Token>, last: Token)
    requires MatchingIds(docs, exact, last) == {}
    ensures IsRanking([], docs, exact, last)
  {
    forall id | id in docs ensures !Matches(docs[id], exact, last) {
      assert id !in MatchingIds(docs, exact, last);
    }
  }

  method Rank(index: SearchIndex, candidates: set<string>, exact: seq<Token>, last: Token) returns (all: seq<Scored>)
    requires index.Exact()
    requires candidates == MatchingIds(index.docs, exact, last)
    ensures IsRanking(all, index.docs, exact, last)
  {
    var scored := ScoreAll(index, candidates, exact, last);
    all := SortHits(scored);
  }

  lemma CandidatesMatch(docs: Docs, exact: seq<Token>, last: Token)
    ensures HoldAll(docs, exact) * (set id | id in docs && AnyStartsWith(docs[id].AllTokens(), last)) ==
            MatchingIds(docs, exact, last)
  {}

  method Query(index: SearchIndex, input: string, limit: nat) returns (results: seq<SearchResult>)
    requires index.Exact()
    ensures Answers(results, index.docs, index.tok(input), limit)
    ensures Ranked(results, index.docs, index.tok(input), limit)
  {
    var tokens := index.tok(input);
    if tokens == [] {
      return [];
    }
    var all := Hits(index, tokens[..|tokens| - 1], tokens[|tokens| - 1]);
    RankingRanks(all, index.docs, tokens, limit);
    results := RenderAll(all[..Min(limit, |all|)]);
  }

  method Hits(index: SearchIndex, exact: seq<Token>, last: Token) returns (all: seq<Scored>)
    requires index.Exact()
    ensures IsRanking(all, index.docs, exact, last)
  {
    CandidatesMatch(index.docs, exact, last);
    var candidates := ExactCandidates(index, exact);
    if candidates == Some({}) {
      NoHits(index.docs, exact, last);
      return [];
    }
    var hits := PrefixCandidates(index, last);
    if hits == {} {
      NoHits(index.docs, exact, last);
      return [];
    }
    var both := Intersect(candidates, hits);
    assert HoldAll(index.docs, []) == index.docs.Keys;
    all := Rank(index, both, exact, last);
  }

  /** A search brings the index up to date first, so what it answers is what
      scanning the doc itself would, whatever happened since the last one. */
  method Search(index: SearchIndex, c: Corpus, lists: seq<ListView>, items: seq<ItemView>, input: string, limit: nat)
    returns (results: seq<SearchResult>)
    requires c.Valid() && ListsAre(lists, c) && ItemsAre(items, c) && index.Exact()
    requires !index.dirtyAll ==>
               && Covered(index.tok, index.docs, index.names, index.dirtyLists, index.dirtyItems, c)
               && index.dirtyLists !! index.dirtyItems
    modifies index
    ensures index.Exact() && index.docs == DocsOf(index.tok, c)
    ensures Answers(results, DocsOf(index.tok, c), index.tok(input), limit)
    ensures Ranked(results, DocsOf(index.tok, c), index.tok(input), limit)
  {
    index.Reconcile(c, lists, items);
    results := Query(index, input, limit);
  }
}
