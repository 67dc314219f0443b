/**
 * The knowledge base's in-memory resource: the cached list of documents
 * and of articles, kept free of duplicates under the documents' and
 * articles' own equality; the partition of a document list into batches of
 * ten; the chunking of an article's text; and the thirty-second window of
 * the cached document list. Storage, the file service and the clock are
 * parameters.
 */
module KnowledgeBaseModel {
  import opened PsychologyTypes
  import opened Strings

  /**
   * A knowledge document. identity stands for what the document's equals
   * compares, which is not part of this model; fileCode is its file.
   */
  datatype Doc = Doc(identity: int, fileCode: string, activated: bool)

  /** A knowledge article; identity stands for what its equals compares. */
  datatype Article = Article(identity: int, id: int, content: string)

  // ---- Searching and removing in a list --------------------------------------

  /** The index of the first element satisfying p, or |xs| when there is none. */
  function FirstWhere<T>(xs: seq<T>, p: T -> bool): (i: nat)
    ensures i <= |xs|
    ensures i < |xs| ==> p(xs[i])
    ensures forall k :: 0 <= k < i ==> !p(xs[k])
  {
    if xs == [] then 0
    else if p(xs[0]) then 0
    else 1 + FirstWhere(xs[1..], p)
  }

  /** The list without its element at i; unchanged when i is |xs|. */
  function RemoveAt<T>(xs: seq<T>, i: nat): (r: seq<T>)
    requires i <= |xs|
    ensures i < |xs| ==> |r| == |xs| - 1
    ensures i == |xs| ==> r == xs
    ensures forall k :: 0 <= k < i ==> r[k] == xs[k]
    ensures forall k :: i <= k < |r| ==> r[k] == xs[k + 1]
  {
    if i == |xs| then xs else xs[..i] + xs[i + 1..]
  }

  function SameDoc(d: Doc): Doc -> bool
  {
    (x: Doc) => x.identity == d.identity
  }

  function HasFileCode(fileCode: string): Doc -> bool
  {
    (x: Doc) => x.fileCode == fileCode
  }

  function SameArticle(a: Article): Article -> bool
  {
    (x: Article) => x.identity == a.identity
  }

  function HasId(id: int): Article -> bool
  {
    (x: Article) => x.id == id
  }

  /** No two documents are equal. */
  predicate UniqueDocs(xs: seq<Doc>)
  {
    forall i, j :: 0 <= i < j < |xs| ==> xs[i].identity != xs[j].identity
  }

  /** No two articles are equal. */
  predicate UniqueArticles(xs: seq<Article>)
  {
    forall i, j :: 0 <= i < j < |xs| ==> xs[i].identity != xs[j].identity
  }

  // ---- Documents ----------------------------------------------------------------

  /** appendDoc on a list: the first equal document is removed and d goes last. */
  function AppendDocTo(xs: seq<Doc>, d: Doc): (r: seq<Doc>)
    ensures r != [] && r[|r| - 1] == d
    ensures r[..|r| - 1] == RemoveAt(xs, FirstWhere(xs, SameDoc(d)))
  {
    var r := RemoveAt(xs, FirstWhere(xs, SameDoc(d))) + [d];
    assert r[..|r| - 1] == RemoveAt(xs, FirstWhere(xs, SameDoc(d)));
    r
  }

  /**
   * In a list without duplicates, appending removes the one document equal
   * to d, if any, so the list stays without duplicates, grows by one
   * exactly when no equal document was there, and keeps every other
   * document in its order.
   */
  lemma AppendDocKeepsUnique(xs: seq<Doc>, d: Doc)
    requires UniqueDocs(xs)
    ensures UniqueDocs(AppendDocTo(xs, d))
    ensures |AppendDocTo(xs, d)| == |xs| + (if exists k :: 0 <= k < |xs| && xs[k].identity == d.identity then 0 else 1)
    ensures forall k :: 0 <= k < |AppendDocTo(xs, d)| - 1 ==> AppendDocTo(xs, d)[k].identity != d.identity
  {
    var i := FirstWhere(xs, SameDoc(d));
    var rest := RemoveAt(xs, i);
    var r := AppendDocTo(xs, d);
    assert r == rest + [d];
    forall k | 0 <= k < |rest|
      ensures rest[k].identity != d.identity
    {
      if k < i {
        assert !SameDoc(d)(xs[k]);
      } else {
        assert rest[k] == xs[k + 1];
        assert SameDoc(d)(xs[i]);
      }
    }
    if exists k :: 0 <= k < |xs| && xs[k].identity == d.identity {
      var k :| 0 <= k < |xs| && xs[k].identity == d.identity;
      assert SameDoc(d)(xs[k]);
    }
  }

  /** On a list without duplicates, appending the same document twice is appending it once. */
  lemma AppendDocIdempotent(xs: seq<Doc>, d: Doc)
    requires UniqueDocs(xs)
    ensures AppendDocTo(AppendDocTo(xs, d), d) == AppendDocTo(xs, d)
  {
    var r := AppendDocTo(xs, d);
    AppendDocKeepsUnique(xs, d);
    assert SameDoc(d)(r[|r| - 1]);
    assert FirstWhere(r, SameDoc(d)) == |r| - 1;
    assert RemoveAt(r, |r| - 1) + [d] == r;
  }

  /** appendDocs: each document in turn, as appendDoc does. */
  function AppendDocsTo(xs: seq<Doc>, list: seq<Doc>): seq<Doc>
  {
    if list == [] then xs else AppendDocTo(AppendDocsTo(xs, list[..|list| - 1]), list[|list| - 1])
  }

  lemma {:induction false} AppendDocsKeepsUnique(xs: seq<Doc>, list: seq<Doc>)
    requires UniqueDocs(xs)
    ensures UniqueDocs(AppendDocsTo(xs, list))
  {
    if list != [] {
      AppendDocsKeepsUnique(xs, list[..|list| - 1]);
      AppendDocKeepsUnique(AppendDocsTo(xs, list[..|list| - 1]), list[|list| - 1]);
    }
  }

  /**
   * The source's removeDoc(fileCode) on a list: the first document with the
   * file code is found, and the list's remove then drops the first
   * document equal to it.
   */
  function RemoveByCode(xs: seq<Doc>, fileCode: string): (r: (seq<Doc>, Option<Doc>))
  {
    var i := FirstWhere(xs, HasFileCode(fileCode));
    if i == |xs| then (xs, None)
    else (RemoveAt(xs, FirstWhere(xs, SameDoc(xs[i]))), Some(xs[i]))
  }

  /**
   * Without duplicates, the document removed by file code is the first one
   * with that code, and nothing else goes; with no such document nothing
   * changes.
   */
  lemma RemoveByCodeMeaning(xs: seq<Doc>, fileCode: string)
    requires UniqueDocs(xs)
    ensures var i := FirstWhere(xs, HasFileCode(fileCode));
      RemoveByCode(xs, fileCode) ==
        if i == |xs| then (xs, None) else (RemoveAt(xs, i), Some(xs[i]))
  {
    var i := FirstWhere(xs, HasFileCode(fileCode));
    if i < |xs| {
      var j := FirstWhere(xs, SameDoc(xs[i]));
      assert SameDoc(xs[i])(xs[i]);
      assert j == i;
    }
  }

  // ---- Articles ------------------------------------------------------------------

  /** appendArticle on a list: an equal article is replaced where it stands, otherwise a goes last. */
  function AppendArticleTo(xs: seq<Article>, a: Article): (r: seq<Article>)
  {
    var i := FirstWhere(xs, SameArticle(a));
    if i == |xs| then xs + [a] else xs[i := a]
  }

  /**
   * Appending an article keeps the list without duplicates; an equal
   * article keeps its place, so the length does not change; a new one
   * goes last; no other article moves.
   */
  lemma AppendArticleMeaning(xs: seq<Article>, a: Article)
    requires UniqueArticles(xs)
    ensures var r := AppendArticleTo(xs, a);
      UniqueArticles(r) && a in r &&
      ((exists k :: 0 <= k < |xs| && xs[k].identity == a.identity) <==> |r| == |xs|) &&
      (forall k :: 0 <= k < |xs| && xs[k].identity != a.identity ==> r[k] == xs[k])
  {
    var i := FirstWhere(xs, SameArticle(a));
    var r := AppendArticleTo(xs, a);
    if i < |xs| {
      assert SameArticle(a)(xs[i]);
      forall k | 0 <= k < |xs| && k != i
        ensures xs[k].identity != a.identity
      {
        if k < i {
          assert !SameArticle(a)(xs[k]);
        }
      }
      assert r[i] == a;
    } else {
      forall k | 0 <= k < |xs|
        ensures xs[k].identity != a.identity
      {
        assert !SameArticle(a)(xs[k]);
      }
      assert r[|xs|] == a;
    }
  }

  /** The source's removeArticle loop: the first article with the id goes. */
  method RemoveArticleFrom(xs: seq<Article>, id: int) returns (r: seq<Article>)
    ensures r == RemoveAt(xs, FirstWhere(xs, HasId(id)))
  {
    var i := 0;
    while i < |xs|
      invariant 0 <= i <= |xs|
      invariant forall k :: 0 <= k < i ==> xs[k].id != id
    {
      if xs[i].id == id {
        assert FirstWhere(xs, HasId(id)) == i by {
          FirstWhereAt(xs, HasId(id), i);
        }
        return xs[..i] + xs[i + 1..];
      }
      i := i + 1;
    }
    FirstWhereAt(xs, HasId(id), |xs|);
    return xs;
  }

  /** The first index is where p first holds. */
  lemma FirstWhereAt<T>(xs: seq<T>, p: T -> bool, i: nat)
    requires i <= |xs|
    requires i < |xs| ==> p(xs[i])
    requires forall k :: 0 <= k < i ==> !p(xs[k])
    ensures FirstWhere(xs, p) == i
  {
  }

  /**
   * Removing by id takes out one article exactly when one has that id,
   * and every article left was there before; the list stays without
   * duplicates.
   */
  lemma RemoveArticleMeaning(xs: seq<Article>, id: int)
    requires UniqueArticles(xs)
    ensures var r := RemoveAt(xs, FirstWhere(xs, HasId(id)));
      UniqueArticles(r) &&
      ((exists k :: 0 <= k < |xs| && xs[k].id == id) <==> |r| == |xs| - 1) &&
      multiset(r) <= multiset(xs)
  {
    var i := FirstWhere(xs, HasId(id));
    RemoveAtShrinks(xs, i);
    var r := RemoveAt(xs, i);
    forall a, b | 0 <= a < b < |r|
      ensures r[a].identity != r[b].identity
    {
      var a', b' := if a < i then a else a + 1, if b < i then b else b + 1;
      assert r[a] == xs[a'] && r[b] == xs[b'];
    }
    if i < |xs| {
      assert HasId(id)(xs[i]);
    } else {
      forall k | 0 <= k < |xs|
        ensures xs[k].id != id
      {
        assert !HasId(id)(xs[k]);
      }
    }
  }

  /** Removing an element leaves a sub-multiset. */
  lemma RemoveAtShrinks<T>(xs: seq<T>, i: nat)
    requires i <= |xs|
    ensures multiset(RemoveAt(xs, i)) <= multiset(xs)
  {
    if i < |xs| {
      assert xs == xs[..i] + [xs[i]] + xs[i + 1..];
    }
  }

  // ---- Batches of ten ------------------------------------------------------------------

  const BatchSize: int := 10

  /**
   * The batch partition of the imports and removals: consecutive batches
   * of ten, the last one shorter, together the whole list.
   */
  method Partition<T>(all: seq<T>) returns (batches: seq<seq<T>>)
    ensures Flatten(batches) == all
    ensures forall k :: 0 <= k < |batches| ==> 1 <= |batches[k]| <= BatchSize
    ensures forall k :: 0 <= k < |batches| - 1 ==> |batches[k]| == BatchSize
    ensures |batches| == (|all| + BatchSize - 1) / BatchSize
  {
    batches := [];
    var index := 0;
    while index < |all|
      invariant 0 <= index <= |all|
      invariant Flatten(batches) == all[..index]
      invariant forall k :: 0 <= k < |batches| ==> 1 <= |batches[k]| <= BatchSize
      invariant forall k :: 0 <= k < |batches| - 1 ==> |batches[k]| == BatchSize
      invariant index < |all| ==>
        (index == BatchSize * |batches| && forall k :: 0 <= k < |batches| ==> |batches[k]| == BatchSize)
      invariant |batches| == (index + BatchSize - 1) / BatchSize
    {
      var docList: seq<T> := [];
      var start := index;
      while |docList| < BatchSize
        invariant start <= index < |all|
        invariant docList == all[start..index]
        invariant |docList| <= BatchSize
        decreases BatchSize - |docList|
      {
        docList := docList + [all[index]];
        index := index + 1;
        if index >= |all| {
          break;
        }
      }
      assert |docList| == index - start;
      assert all[..index] == all[..start] + docList;
      FlattenSnoc(batches, docList);
      BatchCount(|batches|, |docList|);
      batches := batches + [docList];
    }
    assert all[..|all|] == all;
  }

  lemma BatchCount(n: nat, d: int)
    requires 1 <= d <= BatchSize
    ensures (BatchSize * n + d + BatchSize - 1) / BatchSize == n + 1
  {
    var x := BatchSize * n + d + BatchSize - 1;
    assert BatchSize * (n + 1) <= x < BatchSize * (n + 2);
  }

  // ---- Article chunks ------------------------------------------------------------------

  /**
   * The chunk length of trimArticleContent: maxWords for a text within it,
   * otherwise half the length, halved once more if that still exceeds
   * maxWords.
   */
  function TrimLimit(length: nat, maxWords: int): (limit: int)
    ensures length <= maxWords ==> limit == maxWords
    ensures length > maxWords ==> limit <= length / 2
    ensures length > maxWords && length / 2 <= maxWords ==> limit == length / 2
    ensures length > maxWords && length / 2 > maxWords ==> limit == length / 4
  {
    if length > maxWords then
      var half := length / 2;
      if half > maxWords then half / 2 else half
    else maxWords
  }

  /** A group of lines as one chunk: each line followed by a newline. */
  function Lines(group: seq<string>): string
  {
    if group == [] then "" else Lines(group[..|group| - 1]) + group[|group| - 1] + "\n"
  }

  /** The chunking loop's state: the closed groups, the open group and its length. */
  datatype TrimState = TrimState(groups: seq<seq<string>>, current: seq<string>, num: int)

  /** Each line is added first; the group closes once its length reaches limit. */
  function TrimStep(st: TrimState, text: string, limit: int): TrimState
  {
    var num := st.num + |text|;
    if num >= limit then TrimState(st.groups + [st.current + [text]], [], 0)
    else TrimState(st.groups, st.current + [text], num)
  }

  function TrimRun(lines: seq<string>, limit: int): TrimState
  {
    if lines == [] then TrimState([], [], 0)
    else TrimStep(TrimRun(lines[..|lines| - 1], limit), lines[|lines| - 1], limit)
  }

  /** The groups of lines trimArticleContent makes: the closed ones, and the open one unless its length is 0. */
  function TrimGroups(lines: seq<string>, limit: int): seq<seq<string>>
  {
    var st := TrimRun(lines, limit);
    if st.num > 0 then st.groups + [st.current] else st.groups
  }

  /** The chunks of a list of groups. */
  function LinesOf(groups: seq<seq<string>>): (r: seq<string>)
    ensures |r| == |groups| && forall k :: 0 <= k < |r| ==> r[k] == Lines(groups[k])
  {
    if groups == [] then [] else LinesOf(groups[..|groups| - 1]) + [Lines(groups[|groups| - 1])]
  }

  lemma LinesSnoc(group: seq<string>, text: string)
    ensures Lines(group + [text]) == Lines(group) + text + "\n"
  {
    assert (group + [text])[..|group|] == group;
  }

  lemma LinesOfSnoc(groups: seq<seq<string>>, group: seq<string>)
    ensures LinesOf(groups + [group]) == LinesOf(groups) + [Lines(group)]
  {
  }

  /** The source's trimArticleContent: the limit, then the chunking of the text's lines. */
  method TrimArticleContent(content: string, maxWords: int) returns (list: seq<string>)
    ensures list == LinesOf(TrimGroups(JavaSplit(content, '\n'), TrimLimit(|content|, maxWords)))
  {
    var limit := maxWords;
    if |content| > maxWords {
      limit := |content| / 2;
      if limit > maxWords {
        limit := limit / 2;
      }
    }
    list := TrimPieces(JavaSplit(content, '\n'), limit);
  }

  /** The chunking loop of trimArticleContent. */
  method TrimPieces(pieces: seq<string>, limit: int) returns (list: seq<string>)
    ensures list == LinesOf(TrimGroups(pieces, limit))
  {
    list := [];
    var buf := "";
    var num := 0;
    ghost var groups: seq<seq<string>> := [];
    ghost var current: seq<string> := [];
    for i := 0 to |pieces|
      invariant TrimState(groups, current, num) == TrimRun(pieces[..i], limit)
      invariant buf == Lines(current)
      invariant list == LinesOf(groups)
    {
      var text := pieces[i];
      assert pieces[..i + 1][..i] == pieces[..i];
      num := num + |text|;
      buf := buf + text + "\n";
      LinesSnoc(current, text);
      if num >= limit {
        LinesOfSnoc(groups, current + [text]);
        list := list + [buf];
        groups := groups + [current + [text]];
        num := 0;
        buf := "";
        current := [];
      } else {
        current := current + [text];
      }
    }
    assert pieces[..|pieces|] == pieces;
    if num > 0 {
      LinesOfSnoc(groups, current);
      list := list + [buf];
      groups := groups + [current];
    }
  }

  /** What the chunking loop keeps. */
  ghost predicate TrimInvariant(st: TrimState, lines: seq<string>, limit: int)
  {
    && st.num == TotalLength(st.current)
    && Flatten(st.groups) + st.current == lines
    && (st.current != [] ==> st.num < limit)
    && forall g :: 0 <= g < |st.groups| ==> Closed(st.groups[g], limit)
  }

  /** A closed group: it reaches limit with its last line and not before (a single line may close it alone). */
  ghost predicate Closed(group: seq<string>, limit: int)
  {
    group != [] && TotalLength(group) >= limit &&
    (|group| == 1 || TotalLength(group[..|group| - 1]) < limit)
  }

  lemma {:induction false} TrimRunInvariant(lines: seq<string>, limit: int)
    ensures TrimInvariant(TrimRun(lines, limit), lines, limit)
  {
    if lines != [] {
      var init, text := lines[..|lines| - 1], lines[|lines| - 1];
      TrimRunInvariant(init, limit);
      assert lines == init + [text];
      TrimStepKeeps(TrimRun(init, limit), init, text, limit);
    }
  }

  lemma TrimStepKeeps(st: TrimState, init: seq<string>, text: string, limit: int)
    requires TrimInvariant(st, init, limit)
    ensures TrimInvariant(TrimStep(st, text, limit), init + [text], limit)
  {
    var group := st.current + [text];
    assert group[..|st.current|] == st.current;
    assert TotalLength(group) == st.num + |text|;
    if st.current == [] {
      assert TotalLength(st.current) == 0;
    }
    if st.num + |text| >= limit {
      FlattenSnoc(st.groups, group);
      assert Closed(group, limit);
    }
  }

  /**
   * As written: every chunk is a non-empty group of lines that reaches
   * limit with its last line and not before, except that the last may
   * stay below limit; every chunk ends in a newline; the groups are the
   * text's lines in order, and what they leave out at the end is lines of
   * length 0 only.
   */
  lemma TrimGroupsMeaning(lines: seq<string>, limit: int)
    ensures var r := TrimGroups(lines, limit);
      && (forall g :: 0 <= g < |r| - 1 ==> Closed(r[g], limit))
      && (r != [] ==>
            (Closed(r[|r| - 1], limit) || (Flatten(r) == lines && 0 < TotalLength(r[|r| - 1]) < limit)))
      && (forall g :: 0 <= g < |r| ==> |Lines(r[g])| > 0 && Lines(r[g])[|Lines(r[g])| - 1] == '\n')
      && |Flatten(r)| <= |lines| && Flatten(r) == lines[..|Flatten(r)|]
      && TotalLength(lines[|Flatten(r)|..]) == 0
  {
    TrimRunInvariant(lines, limit);
    var st := TrimRun(lines, limit);
    TrimGroupsClosed(st, lines, limit);
    TrimGroupsCover(st, lines, limit);
    var r := if st.num > 0 then st.groups + [st.current] else st.groups;
    assert TrimGroups(lines, limit) == r;
    LinesEndInNewline(r);
  }

  lemma LinesEndInNewline(r: seq<seq<string>>)
    requires forall g :: 0 <= g < |r| ==> r[g] != []
    ensures forall g :: 0 <= g < |r| ==> |Lines(r[g])| > 0 && Lines(r[g])[|Lines(r[g])| - 1] == '\n'
  {
  }

  /** The closed groups of the invariant, and the open one when it holds anything. */
  lemma TrimGroupsClosed(st: TrimState, lines: seq<string>, limit: int)
    requires TrimInvariant(st, lines, limit)
    ensures var r := if st.num > 0 then st.groups + [st.current] else st.groups;
      && (forall g :: 0 <= g < |r| ==> r[g] != [])
      && (forall g :: 0 <= g < |r| - 1 ==> Closed(r[g], limit))
      && (r != [] ==> (Closed(r[|r| - 1], limit) || (st.num > 0 && 0 < TotalLength(r[|r| - 1]) < limit)))
  {
    var r := if st.num > 0 then st.groups + [st.current] else st.groups;
    assert forall g :: 0 <= g < |st.groups| ==> r[g] == st.groups[g];
    if st.num > 0 {
      assert st.current != [] && r[|r| - 1] == st.current;
    }
  }

  /** The groups flatten to the lines but for a trailing open group of length 0. */
  lemma TrimGroupsCover(st: TrimState, lines: seq<string>, limit: int)
    requires TrimInvariant(st, lines, limit)
    ensures var r := if st.num > 0 then st.groups + [st.current] else st.groups;
      && (st.num > 0 ==> Flatten(r) == lines)
      && |Flatten(r)| <= |lines| && Flatten(r) == lines[..|Flatten(r)|]
      && TotalLength(lines[|Flatten(r)|..]) == 0
  {
    if st.num > 0 {
      FlattenSnoc(st.groups, st.current);
      assert lines[|lines|..] == [];
    } else {
      assert lines[|Flatten(st.groups)|..] == st.current;
    }
  }

  // ---- The resource ---------------------------------------------------------------------

  /** How long a listed document list is served from memory: thirty seconds. */
  const ListWindow: int := 30 * 1000

  /** The listed documents whose file still exists, in their order. */
  function Present(stored: seq<Doc>, files: set<string>): (r: seq<Doc>)
    ensures forall k :: 0 <= k < |r| ==> r[k].fileCode in files
  {
    if stored == [] then []
    else
      var init := stored[..|stored| - 1];
      var d := stored[|stored| - 1];
      if d.fileCode in files then Present(init, files) + [d] else Present(init, files)
  }

  /** The listed documents whose file is gone; they are deleted from storage. */
  function Gone(stored: seq<Doc>, files: set<string>): (r: seq<Doc>)
    ensures forall k :: 0 <= k < |r| ==> r[k].fileCode !in files
  {
    if stored == [] then []
    else
      var init := stored[..|stored| - 1];
      var d := stored[|stored| - 1];
      if d.fileCode in files then Gone(init, files) else Gone(init, files) + [d]
  }

  /** Every listed document is kept or deleted. */
  lemma {:induction false} PresentGone(stored: seq<Doc>, files: set<string>)
    ensures multiset(Present(stored, files)) + multiset(Gone(stored, files)) == multiset(stored)
  {
    if stored != [] {
      var init := stored[..|stored| - 1];
      var d := stored[|stored| - 1];
      PresentGone(init, files);
      assert multiset(stored) == multiset(init) + multiset{d} by {
        assert stored == init + [d];
      }
      if d.fileCode in files {
        assert Present(stored, files) == Present(init, files) + [d];
        assert Gone(stored, files) == Gone(init, files);
      } else {
        assert Present(stored, files) == Present(init, files);
        assert Gone(stored, files) == Gone(init, files) + [d];
      }
    }
  }

  /** The filter of listKnowledgeDocs: documents whose file is gone are removed from the list and from storage. */
  method FilterPresent(stored: seq<Doc>, files: set<string>) returns (kept: seq<Doc>, deleted: seq<Doc>)
    ensures kept == Present(stored, files) && deleted == Gone(stored, files)
  {
    kept := [];
    deleted := [];
    for i := 0 to |stored|
      invariant kept == Present(stored[..i], files) && deleted == Gone(stored[..i], files)
    {
      assert stored[..i + 1][..i] == stored[..i];
      if stored[i].fileCode in files {
        kept := kept + [stored[i]];
      } else {
        deleted := deleted + [stored[i]];
      }
    }
    assert stored[..|stored|] == stored;
  }

  /** The source's getKnowledgeDoc on a list: the first document with the file code. */
  method FindDoc(xs: seq<Doc>, fileCode: string) returns (r: Option<Doc>)
    ensures var i := FirstWhere(xs, HasFileCode(fileCode));
      r == if i == |xs| then None else Some(xs[i])
  {
    var i := 0;
    while i < |xs|
      invariant 0 <= i <= |xs|
      invariant forall k :: 0 <= k < i ==> xs[k].fileCode != fileCode
    {
      if xs[i].fileCode == fileCode {
        FirstWhereAt(xs, HasFileCode(fileCode), i);
        return Some(xs[i]);
      }
      i := i + 1;
    }
    FirstWhereAt(xs, HasFileCode(fileCode), |xs|);
    return None;
  }

  class KnowledgeResource {
    /** None stands for the source's null list. */
    var docList: Option<seq<Doc>>
    var listDocTime: int
    var articleList: Option<seq<Article>>

    /** Neither list holds two equal entries. */
    ghost predicate Valid()
      reads this
    {
      (docList.Some? ==> UniqueDocs(docList.value)) &&
      (articleList.Some? ==> UniqueArticles(articleList.value))
    }

    constructor ()
      ensures docList.None? && articleList.None? && listDocTime == 0
      ensures Valid()
    {
      docList := None;
      listDocTime := 0;
      articleList := None;
    }

    method GetKnowledgeDoc(fileCode: string) returns (r: Option<Doc>)
      ensures r.Some? ==> docList.Some? && r.value in docList.value && r.value.fileCode == fileCode
      ensures r.None? <==> docList.None? || forall k :: 0 <= k < |docList.value| ==> docList.value[k].fileCode != fileCode
    {
      if docList.None? {
        return None;
      }
      r := FindDoc(docList.value, fileCode);
      if r.None? {
        forall k | 0 <= k < |docList.value|
          ensures docList.value[k].fileCode != fileCode
        {
          assert !HasFileCode(fileCode)(docList.value[k]);
        }
      } else {
        assert HasFileCode(fileCode)(r.value);
      }
    }

    /** clearDocs always leaves an empty list, creating one when there is none. */
    method ClearDocs()
      requires Valid()
      modifies this
      ensures Valid()
      ensures docList == Some([])
      ensures articleList == old(articleList) && listDocTime == old(listDocTime)
    {
      docList := Some([]);
    }

    method AppendDoc(d: Doc)
      requires Valid()
      modifies this
      ensures Valid()
      ensures docList == Some(AppendDocTo(if old(docList).Some? then old(docList).value else [], d))
      ensures articleList == old(articleList) && listDocTime == old(listDocTime)
    {
      var xs := if docList.Some? then docList.value else [];
      AppendDocKeepsUnique(xs, d);
      docList := Some(AppendDocTo(xs, d));
    }

    method AppendDocs(list: seq<Doc>)
      requires Valid()
      modifies this
      ensures Valid()
      ensures docList == Some(AppendDocsTo(if old(docList).Some? then old(docList).value else [], list))
      ensures articleList == old(articleList) && listDocTime == old(listDocTime)
    {
      ghost var start := if docList.Some? then docList.value else [];
      if docList.None? {
        docList := Some([]);
      }
      for i := 0 to |list|
        invariant Valid()
        invariant docList == Some(AppendDocsTo(start, list[..i]))
        invariant articleList == old(articleList) && listDocTime == old(listDocTime)
      {
        assert list[..i + 1][..i] == list[..i];
        AppendDoc(list[i]);
      }
      assert list[..|list|] == list;
    }

    /** removeDoc(doc): the first equal document goes; nothing happens without a list. */
    method RemoveDoc(d: Doc)
      requires Valid()
      modifies this
      ensures Valid()
      ensures docList == if old(docList).None? then None
        else Some(RemoveAt(old(docList).value, FirstWhere(old(docList).value, SameDoc(d))))
      ensures articleList == old(articleList) && listDocTime == old(listDocTime)
    {
      if docList.None? {
        return;
      }
      var xs := docList.value;
      var i := FirstWhere(xs, SameDoc(d));
      docList := Some(RemoveAt(xs, i));
    }

    /** removeDoc(fileCode): the first document with the code is removed and returned. */
    method RemoveDocByCode(fileCode: string) returns (r: Option<Doc>)
      requires Valid()
      modifies this
      ensures Valid()
      ensures old(docList).None? ==> r.None? && docList.None?
      ensures old(docList).Some? ==>
        var i := FirstWhere(old(docList).value, HasFileCode(fileCode));
        if i == |old(docList).value| then r.None? && docList == old(docList)
        else r == Some(old(docList).value[i]) && docList == Some(RemoveAt(old(docList).value, i))
      ensures articleList == old(articleList) && listDocTime == old(listDocTime)
    {
      if docList.None? {
        return None;
      }
      var xs := docList.value;
      RemoveByCodeMeaning(xs, fileCode);
      var found := FindDoc(xs, fileCode);
      if found.None? {
        return None;
      }
      var i := FirstWhere(xs, SameDoc(found.value));
      docList := Some(RemoveAt(xs, i));
      return found;
    }

    method AppendArticle(a: Article)
      requires Valid()
      modifies this
      ensures Valid()
      ensures articleList == Some(AppendArticleTo(if old(articleList).Some? then old(articleList).value else [], a))
      ensures docList == old(docList) && listDocTime == old(listDocTime)
    {
      var xs := if articleList.Some? then articleList.value else [];
      AppendArticleMeaning(xs, a);
      var i := FirstWhere(xs, SameArticle(a));
      if i == |xs| {
        articleList := Some(xs + [a]);
      } else {
        articleList := Some(xs[i := a]);
      }
    }

    /** removeArticle: the first article with the id goes; nothing happens without a list. */
    method RemoveArticle(id: int)
      requires Valid()
      modifies this
      ensures Valid()
      ensures articleList == if old(articleList).None? then None
        else Some(RemoveAt(old(articleList).value, FirstWhere(old(articleList).value, HasId(id))))
      ensures docList == old(docList) && listDocTime == old(listDocTime)
    {
      if articleList.None? {
        return;
      }
      RemoveArticleMeaning(articleList.value, id);
      var r := RemoveArticleFrom(articleList.value, id);
      articleList := Some(r);
    }

    /** clearArticles leaves no list as it is. */
    method ClearArticles()
      requires Valid()
      modifies this
      ensures Valid()
      ensures articleList == if old(articleList).None? then None else Some([])
      ensures docList == old(docList) && listDocTime == old(listDocTime)
    {
      if articleList.None? {
        return;
      }
      articleList := Some([]);
    }

    /**
     * The source's listKnowledgeDocs. force first clears the list and its
     * time. A list younger than thirty seconds is served from memory;
     * otherwise the stored list (stored, read by the caller) is filtered
     * by the files that still exist, the time noted and the survivors
     * appended to the cache. deleted are the documents removed from
     * storage.
     */
    method ListKnowledgeDocs(force: bool, now: int, stored: seq<Doc>, files: set<string>)
      returns (r: seq<Doc>, deleted: seq<Doc>)
      requires Valid()
      modifies this
      ensures Valid()
      ensures var docs := if force then Some([]) else old(docList);
        var time := if force then 0 else old(listDocTime);
        if docs.Some? && now - time < ListWindow then
          r == docs.value && deleted == [] && docList == docs && listDocTime == time
        else
          r == Present(stored, files) && deleted == Gone(stored, files) && listDocTime == now &&
          docList == Some(AppendDocsTo(if docs.Some? then docs.value else [], r))
      ensures articleList == old(articleList)
    {
      if force {
        ClearDocs();
        listDocTime := 0;
      }
      if docList.Some? && now - listDocTime < ListWindow {
        return docList.value, [];
      }
      r, deleted := FilterPresent(stored, files);
      listDocTime := now;
      AppendDocs(r);
    }
  }
}
