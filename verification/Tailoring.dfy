/** Reordering a resume for a posting, and putting it into HTML: nothing is added, dropped or left raw. */
module Tailoring {
  import opened Basics
  import opened Orders

  // -------------------------------------------------------------- escaping

  /** Replaces every occurrence of one character. */
  function Replace(text: string, c: char, entity: string): string {
    if text == "" then ""
    else (if text[0] == c then entity else [text[0]]) + Replace(text[1..], c, entity)
  }

  /** The five passes in the program's order: the ampersand first. */
  function EscapeHtml(text: string): string {
    Replace(Replace(Replace(Replace(Replace(text, '&', "&amp;"), '<', "&lt;"), '>', "&gt;"), '"', "&quot;"), '\'', "&#39;")
  }

  function Entity(c: char): string {
    if c == '&' then "&amp;"
    else if c == '<' then "&lt;"
    else if c == '>' then "&gt;"
    else if c == '"' then "&quot;"
    else if c == '\'' then "&#39;"
    else [c]
  }

  /** One pass, character by character. */
  function EscapeOnce(text: string): string {
    if text == "" then "" else Entity(text[0]) + EscapeOnce(text[1..])
  }

  lemma {:induction false} ReplaceJoins(a: string, b: string, c: char, entity: string)
    ensures Replace(a + b, c, entity) == Replace(a, c, entity) + Replace(b, c, entity)
  {
    if a == "" {
      assert a + b == b;
    } else {
      assert (a + b)[1..] == a[1..] + b;
      ReplaceJoins(a[1..], b, c, entity);
    }
  }

  lemma {:induction false} ReplaceAbsent(text: string, c: char, entity: string)
    requires c !in text
    ensures Replace(text, c, entity) == text
  {
    if text != "" {
      ReplaceAbsent(text[1..], c, entity);
    }
  }

  lemma EscapeJoins(a: string, b: string)
    ensures EscapeHtml(a + b) == EscapeHtml(a) + EscapeHtml(b)
  {
    var a1, b1 := Replace(a, '&', "&amp;"), Replace(b, '&', "&amp;");
    var a2, b2 := Replace(a1, '<', "&lt;"), Replace(b1, '<', "&lt;");
    var a3, b3 := Replace(a2, '>', "&gt;"), Replace(b2, '>', "&gt;");
    var a4, b4 := Replace(a3, '"', "&quot;"), Replace(b3, '"', "&quot;");
    ReplaceJoins(a, b, '&', "&amp;");
    ReplaceJoins(a1, b1, '<', "&lt;");
    ReplaceJoins(a2, b2, '>', "&gt;");
    ReplaceJoins(a3, b3, '"', "&quot;");
    ReplaceJoins(a4, b4, '\'', "&#39;");
  }

  lemma ReplaceOne(d: char, c: char, entity: string)
    ensures Replace([d], c, entity) == if d == c then entity else [d]
  {
    assert [d][1..] == "";
  }

  /** The passes after the first. */
  function AfterAmp(text: string): string {
    AfterLess(Replace(text, '<', "&lt;"))
  }

  function AfterLess(text: string): string {
    AfterGreater(Replace(text, '>', "&gt;"))
  }

  function AfterGreater(text: string): string {
    Replace(Replace(text, '"', "&quot;"), '\'', "&#39;")
  }

  lemma GreaterUntouched(text: string)
    requires '"' !in text && '\'' !in text
    ensures AfterGreater(text) == text
  {
    ReplaceAbsent(text, '"', "&quot;");
    ReplaceAbsent(text, '\'', "&#39;");
  }

  lemma LessUntouched(text: string)
    requires '>' !in text && '"' !in text && '\'' !in text
    ensures AfterLess(text) == text
  {
    ReplaceAbsent(text, '>', "&gt;");
    GreaterUntouched(text);
  }

  lemma AmpUntouched(text: string)
    requires '<' !in text && '>' !in text && '"' !in text && '\'' !in text
    ensures AfterAmp(text) == text
  {
    ReplaceAbsent(text, '<', "&lt;");
    LessUntouched(text);
  }

  lemma QuotesEscape(c: char)
    requires c !in {'&', '<', '>'}
    ensures AfterGreater([c]) == Entity(c)
  {
    ReplaceOne(c, '"', "&quot;");
    if c == '"' {
      ReplaceAbsent("&quot;", '\'', "&#39;");
    } else {
      ReplaceOne(c, '\'', "&#39;");
    }
  }

  lemma GreaterEscapes(c: char)
    requires c !in {'&', '<'}
    ensures AfterLess([c]) == Entity(c)
  {
    ReplaceOne(c, '>', "&gt;");
    if c == '>' {
      GreaterUntouched("&gt;");
    } else {
      QuotesEscape(c);
    }
  }

  lemma LessEscapes(c: char)
    requires c != '&'
    ensures AfterAmp([c]) == Entity(c)
  {
    ReplaceOne(c, '<', "&lt;");
    if c == '<' {
      LessUntouched("&lt;");
    } else {
      GreaterEscapes(c);
    }
  }

  /** Later passes leave the earlier passes' entities alone: none of those contains a character still to come. */
  lemma EscapeChar(c: char)
    ensures EscapeHtml([c]) == Entity(c)
  {
    ReplaceOne(c, '&', "&amp;");
    if c == '&' {
      AmpUntouched("&amp;");
    } else {
      LessEscapes(c);
    }
  }

  /** The five passes amount to one. */
  lemma {:induction false} FivePassesAreOne(text: string)
    ensures EscapeHtml(text) == EscapeOnce(text)
  {
    if text == "" {
    } else {
      assert text == [text[0]] + text[1..];
      EscapeJoins([text[0]], text[1..]);
      EscapeChar(text[0]);
      FivePassesAreOne(text[1..]);
    }
  }

  /** Nothing that could open or close markup or an attribute is left. */
  lemma {:induction false} NoRawMarkup(text: string)
    ensures forall i :: 0 <= i < |EscapeHtml(text)| ==> EscapeHtml(text)[i] !in {'<', '>', '"', '\''}
  {
    FivePassesAreOne(text);
    if text != "" {
      FivePassesAreOne(text[1..]);
      NoRawMarkup(text[1..]);
    }
  }

  /** Reads one entity or one plain character off the front. */
  function Front(text: string): (r: (char, nat))
    requires text != ""
    ensures 1 <= r.1 <= |text|
  {
    if "&amp;" <= text then ('&', 5)
    else if "&lt;" <= text then ('<', 4)
    else if "&gt;" <= text then ('>', 4)
    else if "&quot;" <= text then ('"', 6)
    else if "&#39;" <= text then ('\'', 5)
    else (text[0], 1)
  }

  function Unescape(text: string): string
    decreases |text|
  {
    if text == "" then ""
    else
      var (c, n) := Front(text);
      [c] + Unescape(text[n..])
  }

  lemma FrontOfEntity(c: char, rest: string)
    ensures Front(Entity(c) + rest) == (c, |Entity(c)|)
    ensures (Entity(c) + rest)[|Entity(c)|..] == rest
  {
    var text := Entity(c) + rest;
    assert Entity(c) <= text;
    assert text[0] == Entity(c)[0];
    if c == '&' || c == '<' || c == '>' || c == '"' || c == '\'' {
      assert text[1] == Entity(c)[1] && text[2] == Entity(c)[2];
    }
  }

  /** Unescaping gives the text back, so no two texts look alike once escaped. */
  lemma {:induction false} UnescapeUndoes(text: string)
    ensures Unescape(EscapeHtml(text)) == text
  {
    FivePassesAreOne(text);
    if text != "" {
      FivePassesAreOne(text[1..]);
      UnescapeUndoes(text[1..]);
      FrontOfEntity(text[0], EscapeOnce(text[1..]));
    }
  }

  // -------------------------------------------------------------- ordering

  /** Falling score, original order among equals. */
  predicate Ahead(scores: seq<int>, i: nat, j: nat) {
    i < |scores| && j < |scores| && (scores[i] > scores[j] || (scores[i] == scores[j] && i < j))
  }

  ghost predicate IsStableOrder(scores: seq<int>, order: seq<nat>) {
    Permutes(order, |scores|) && SortedBy(order, (i: nat, j: nat) => Ahead(scores, i, j))
  }

  /** How many entries at the front of a sorted order are at least as good as `score`. */
  function Place(scores: seq<int>, order: seq<nat>, score: int): (r: nat)
    requires forall k :: 0 <= k < |order| ==> order[k] < |scores|
    ensures r <= |order|
    ensures forall k :: 0 <= k < r ==> scores[order[k]] >= score
    ensures r < |order| ==> scores[order[r]] < score
  {
    if order == [] || scores[order[0]] < score then 0 else 1 + Place(scores, order[1..], score)
  }

  /** The platform's stable sort, by insertion. */
  function StableSort(scores: seq<int>): (order: seq<nat>)
    ensures forall k :: 0 <= k < |order| ==> order[k] < |scores|
  {
    if scores == [] then []
    else
      var n := |scores| - 1;
      var before := StableSort(scores[..n]);
      var p := Place(scores, before, scores[n]);
      before[..p] + [n] + before[p..]
  }

  lemma {:induction false} StableSortSorts(scores: seq<int>)
    ensures IsStableOrder(scores, StableSort(scores))
  {
    if scores != [] {
      var n := |scores| - 1;
      StableSortSorts(scores[..n]);
      InsertSorts(scores, StableSort(scores[..n]));
    }
  }

  lemma InsertSorts(scores: seq<int>, before: seq<nat>)
    requires scores != [] && IsStableOrder(scores[..|scores| - 1], before)
    ensures var n := |scores| - 1;
            var p := Place(scores, before, scores[n]);
            IsStableOrder(scores, before[..p] + [n] + before[p..])
  {
    var n := |scores| - 1;
    var p := Place(scores, before, scores[n]);
    InsertPermutes(before, n, p);
    forall a, b | 0 <= a < b < |before|
      ensures Ahead(scores, before[a], before[b])
    {
      assert Ahead(scores[..n], before[a], before[b]);
    }
    InsertOrders(scores, before, n, p);
  }

  lemma InsertPermutes(before: seq<nat>, n: nat, p: nat)
    requires Permutes(before, n) && p <= n
    ensures Permutes(before[..p] + [n] + before[p..], n + 1)
  {
    var after := before[..p] + [n] + before[p..];
    forall i: nat | i < n + 1
      ensures i in after
    {
      if i < n {
        assert i in before && before == before[..p] + before[p..];
      }
    }
  }

  lemma InsertOrders(scores: seq<int>, before: seq<nat>, n: nat, p: nat)
    requires n == |scores| - 1 && Permutes(before, n) && p == Place(scores, before, scores[n])
    requires forall a, b :: 0 <= a < b < |before| ==> Ahead(scores, before[a], before[b])
    ensures SortedBy(before[..p] + [n] + before[p..], (i: nat, j: nat) => Ahead(scores, i, j))
  {
    forall k | p <= k < |before|
      ensures Ahead(scores, n, before[k])
    {
      if k > p {
        assert Ahead(scores, before[p], before[k]);
      }
    }
  }

  /** There is one stable order. */
  lemma StableOrderUnique(scores: seq<int>, a: seq<nat>, b: seq<nat>)
    requires IsStableOrder(scores, a) && IsStableOrder(scores, b)
    ensures a == b
  {
    forall i: nat ensures i in a <==> i in b {
      assert i in a ==> i < |scores|;
      assert i in b ==> i < |scores|;
    }
    SortedUnique(a, b, (i: nat, j: nat) => Ahead(scores, i, j));
  }

  lemma WithoutOne<T>(items: seq<T>, k: nat)
    requires k < |items|
    ensures multiset(items) == multiset(items[..k] + items[k + 1..]) + multiset{items[k]}
  {
    assert items == items[..k] + [items[k]] + items[k + 1..];
  }

  lemma DropPermutes(order: seq<nat>, k: nat, n: nat)
    requires Permutes(order, n + 1) && Distinct(order) && k < |order| && order[k] == n
    ensures Permutes(Drop(order, k), n) && Distinct(Drop(order, k))
  {
    forall i: nat | i < n ensures i in Drop(order, k) {
      DropMembers(order, k, i);
    }
  }

  /** A permutation keeps every entry as often as it occurred. */
  lemma {:induction false} PickKeeps<T>(items: seq<T>, order: seq<nat>)
    requires Permutes(order, |items|) && Distinct(order)
    ensures multiset(Pick(items, order)) == multiset(items)
    decreases |items|
  {
    if items == [] {
      assert Pick(items, order) == [];
    } else {
      var n := |items| - 1;
      assert n in order;
      var k :| 0 <= k < |order| && order[k] == n;
      DropPermutes(order, k, n);
      PickKeeps(items[..n], Drop(order, k));
      PickPutsBack(items, order, k);
    }
  }

  lemma PickPutsBack<T>(items: seq<T>, order: seq<nat>, k: nat)
    requires items != [] && Permutes(order, |items|) && Distinct(order) && k < |order| && order[k] == |items| - 1
    requires Permutes(Drop(order, k), |items| - 1)
    requires multiset(Pick(items[..|items| - 1], Drop(order, k))) == multiset(items[..|items| - 1])
    ensures multiset(Pick(items, order)) == multiset(items)
  {
    var n := |items| - 1;
    WithoutOne(Pick(items, order), k);
    PickDropped(items, order, k);
    assert items == items[..n] + [items[n]];
  }

  lemma PickDropped<T>(items: seq<T>, order: seq<nat>, k: nat)
    requires items != [] && Permutes(order, |items|) && Distinct(order) && k < |order| && order[k] == |items| - 1
    requires Permutes(Drop(order, k), |items| - 1)
    ensures var r := Pick(items, order);
            Pick(items[..|items| - 1], Drop(order, k)) == r[..k] + r[k + 1..]
  {
  }

  lemma StableIsDistinct(scores: seq<int>, order: seq<nat>)
    requires IsStableOrder(scores, order)
    ensures Distinct(order)
  {
    forall a, b | 0 <= a < b < |order| ensures order[a] != order[b] {
      assert Ahead(scores, order[a], order[b]);
    }
  }

  // ------------------------------------------------------------------ plan

  datatype Entry = Entry(id: string, text: string)

  datatype Position = Position(id: string, role: string, company: string, bullets: seq<Entry>)

  datatype Document = Document(skills: seq<Entry>, experience: seq<Position>)

  datatype Block = Block(id: string, bulletIds: seq<string>)

  datatype Plan = Plan(skillOrder: seq<string>, experience: seq<Block>, skillsChanged: bool, bulletsChanged: bool)

  /** How many of the posting's keywords a text contains; the tokenizer is the program's. */
  type Overlap = string -> int

  function Scores(entries: seq<Entry>, overlap: Overlap): (r: seq<int>)
    ensures |r| == |entries|
    ensures forall i :: 0 <= i < |r| ==> r[i] == overlap(entries[i].text)
  {
    seq(|entries|, i requires 0 <= i < |entries| => overlap(entries[i].text))
  }

  function Ids(entries: seq<Entry>): (r: seq<string>)
    ensures |r| == |entries|
    ensures forall i :: 0 <= i < |r| ==> r[i] == entries[i].id
  {
    seq(|entries|, i requires 0 <= i < |entries| => entries[i].id)
  }

  /** The entries of a list in their planned order. */
  function Sorted(entries: seq<Entry>, overlap: Overlap): (r: seq<Entry>)
    ensures |r| == |StableSort(Scores(entries, overlap))|
  {
    Pick(entries, StableSort(Scores(entries, overlap)))
  }

  /** Some position of the new order names another id than the old list does there. */
  predicate Moved(original: seq<string>, planned: seq<string>) {
    exists i :: 0 <= i < |planned| && (i >= |original| || planned[i] != original[i])
  }

  predicate OwnIds(entries: seq<Entry>) {
    forall i, j :: 0 <= i < j < |entries| ==> entries[i].id != entries[j].id
  }

  predicate Falling(scores: seq<int>) {
    forall i, j :: 0 <= i < j < |scores| ==> scores[i] >= scores[j]
  }

  lemma SortedKeeps(entries: seq<Entry>, overlap: Overlap)
    ensures multiset(Sorted(entries, overlap)) == multiset(entries)
    ensures |Sorted(entries, overlap)| == |entries|
  {
    var scores := Scores(entries, overlap);
    StableSortSorts(scores);
    StableIsDistinct(scores, StableSort(scores));
    PickKeeps(entries, StableSort(scores));
  }

  function Identity(n: nat): (r: seq<nat>)
    ensures |r| == n && forall i :: 0 <= i < n ==> r[i] == i
  {
    seq(n, i requires 0 <= i < n => i)
  }

  /** With ids of their own, the entries count as moved exactly when their overlaps did not already fall. */
  lemma MovedExactly(entries: seq<Entry>, overlap: Overlap)
    requires OwnIds(entries)
    ensures Moved(Ids(entries), Ids(Sorted(entries, overlap))) <==> Sorted(entries, overlap) != entries
    ensures Moved(Ids(entries), Ids(Sorted(entries, overlap))) <==> !Falling(Scores(entries, overlap))
  {
    var scores := Scores(entries, overlap);
    var order := StableSort(scores);
    var sorted := Sorted(entries, overlap);
    SortedKeeps(entries, overlap);
    StableSortSorts(scores);
    if Falling(scores) {
      IdentitySorts(scores);
      StableOrderUnique(scores, order, Identity(|scores|));
      assert sorted == entries;
    } else {
      NotFallingMoves(entries, overlap);
    }
  }

  lemma IdentitySorts(scores: seq<int>)
    requires Falling(scores)
    ensures IsStableOrder(scores, Identity(|scores|))
  {
    var same := Identity(|scores|);
    forall i | 0 <= i < |scores| ensures i in same {
      assert same[i] == i;
    }
  }

  lemma IdentityFalls(scores: seq<int>, order: seq<nat>)
    requires IsStableOrder(scores, order) && forall k :: 0 <= k < |order| ==> order[k] == k
    ensures Falling(scores)
  {
    forall i, j | 0 <= i < j < |scores| ensures scores[i] >= scores[j] {
      assert Ahead(scores, order[i], order[j]);
    }
  }

  lemma NotFallingMoves(entries: seq<Entry>, overlap: Overlap)
    requires OwnIds(entries) && !Falling(Scores(entries, overlap)) && |Sorted(entries, overlap)| == |entries|
    requires IsStableOrder(Scores(entries, overlap), StableSort(Scores(entries, overlap)))
    ensures Moved(Ids(entries), Ids(Sorted(entries, overlap)))
  {
    var order := StableSort(Scores(entries, overlap));
    if forall k :: 0 <= k < |order| ==> order[k] == k {
      IdentityFalls(Scores(entries, overlap), order);
    } else {
      var k :| 0 <= k < |order| && order[k] != k;
      assert Sorted(entries, overlap)[k].id == entries[order[k]].id != entries[k].id;
      assert Ids(Sorted(entries, overlap))[k] != Ids(entries)[k];
    }
  }

  // ------------------------------------------------------------- rendering

  /** The text of the entry with the id, as a map from ids keeps it: the last one with that id. */
  function Lookup(entries: seq<Entry>, id: string): Option<string> {
    if entries == [] then None
    else if entries[|entries| - 1].id == id then Some(entries[|entries| - 1].text)
    else Lookup(entries[..|entries| - 1], id)
  }

  /** The escaped texts in the order the ids are listed; unknown ids are skipped. */
  function Rendered(entries: seq<Entry>, ids: seq<string>): seq<string> {
    if ids == [] then []
    else
      match Lookup(entries, ids[|ids| - 1])
      case None => Rendered(entries, ids[..|ids| - 1])
      case Some(text) => Rendered(entries, ids[..|ids| - 1]) + [EscapeHtml(text)]
  }

  function Escaped(entries: seq<Entry>): (r: seq<string>)
    ensures |r| == |entries|
    ensures forall i :: 0 <= i < |r| ==> r[i] == EscapeHtml(entries[i].text)
  {
    seq(|entries|, i requires 0 <= i < |entries| => EscapeHtml(entries[i].text))
  }

  /** Entries under one id have one text; ids of their own are enough for that. */
  predicate SameTexts(entries: seq<Entry>) {
    forall i, j :: 0 <= i < j < |entries| && entries[i].id == entries[j].id ==> entries[i].text == entries[j].text
  }

  lemma {:induction false} LookupFinds(entries: seq<Entry>, k: nat)
    requires k < |entries|
    ensures Lookup(entries, entries[k].id).Some?
    ensures SameTexts(entries) ==> Lookup(entries, entries[k].id).value == entries[k].text
  {
    var n := |entries| - 1;
    if entries[n].id != entries[k].id {
      LookupFinds(entries[..n], k);
    }
  }

  /** What is rendered for an entry is what its id stands for. */
  lemma {:induction false} RenderedAt(entries: seq<Entry>, chosen: seq<Entry>)
    requires forall m :: 0 <= m < |chosen| ==> chosen[m] in entries
    ensures |Rendered(entries, Ids(chosen))| == |chosen|
    ensures forall m :: 0 <= m < |chosen| ==>
              && Lookup(entries, chosen[m].id).Some?
              && Rendered(entries, Ids(chosen))[m] == EscapeHtml(Lookup(entries, chosen[m].id).value)
  {
    if chosen != [] {
      var init, last := chosen[..|chosen| - 1], chosen[|chosen| - 1];
      assert Ids(chosen)[..|chosen| - 1] == Ids(init);
      RenderedAt(entries, init);
      var k :| 0 <= k < |entries| && entries[k] == last;
      LookupFinds(entries, k);
    }
  }

  lemma RenderedInOrder(entries: seq<Entry>, chosen: seq<Entry>)
    requires SameTexts(entries) && forall m :: 0 <= m < |chosen| ==> chosen[m] in entries
    ensures Rendered(entries, Ids(chosen)) == Escaped(chosen)
  {
    RenderedAt(entries, chosen);
    forall m | 0 <= m < |chosen|
      ensures Lookup(entries, chosen[m].id) == Some(chosen[m].text)
    {
      var k :| 0 <= k < |entries| && entries[k] == chosen[m];
      LookupFinds(entries, k);
    }
  }

  lemma EscapeInjective(a: string, b: string)
    requires EscapeHtml(a) == EscapeHtml(b)
    ensures a == b
  {
    UnescapeUndoes(a);
    UnescapeUndoes(b);
  }

  /** If every chosen entry is rendered as itself, an id stands for each text it was given. */
  lemma OwnTextRendered(entries: seq<Entry>, chosen: seq<Entry>, e: Entry)
    requires forall m :: 0 <= m < |chosen| ==> chosen[m] in entries
    requires e in chosen && Rendered(entries, Ids(chosen)) == Escaped(chosen)
    ensures Lookup(entries, e.id) == Some(e.text)
  {
    RenderedAt(entries, chosen);
    var m :| 0 <= m < |chosen| && chosen[m] == e;
    EscapeInjective(Lookup(entries, e.id).value, e.text);
  }

  lemma EscapedPick(entries: seq<Entry>, order: seq<nat>)
    requires forall k :: 0 <= k < |order| ==> order[k] < |entries|
    ensures Escaped(Pick(entries, order)) == Pick(Escaped(entries), order)
  {
  }

  lemma SortedMembers(entries: seq<Entry>, overlap: Overlap)
    ensures forall e :: e in Sorted(entries, overlap) <==> e in entries
  {
    SortedKeeps(entries, overlap);
    forall e
      ensures e in Sorted(entries, overlap) <==> e in entries
    {
      assert e in multiset(Sorted(entries, overlap)) <==> e in multiset(entries);
    }
  }

  /**
   * Ids are not checked for duplicates. In the planned order every entry is rendered as its own
   * text if and only if entries under one id have one text.
   */
  lemma RenderedExactly(entries: seq<Entry>, overlap: Overlap)
    ensures Rendered(entries, Ids(Sorted(entries, overlap))) == Escaped(Sorted(entries, overlap)) <==> SameTexts(entries)
  {
    var sorted := Sorted(entries, overlap);
    SortedMembers(entries, overlap);
    if SameTexts(entries) {
      RenderedInOrder(entries, sorted);
    } else if Rendered(entries, Ids(sorted)) == Escaped(sorted) {
      var i, j :| 0 <= i < j < |entries| && entries[i].id == entries[j].id && entries[i].text != entries[j].text;
      OwnTextRendered(entries, sorted, entries[i]);
      OwnTextRendered(entries, sorted, entries[j]);
      assert false;
    }
  }

  /** Planning and rendering a list then only permutes it: every text appears, escaped, as often as it was there. */
  lemma RenderingPermutes(entries: seq<Entry>, overlap: Overlap)
    requires SameTexts(entries)
    ensures multiset(Rendered(entries, Ids(Sorted(entries, overlap)))) == multiset(Escaped(entries))
  {
    var order := StableSort(Scores(entries, overlap));
    RenderedExactly(entries, overlap);
    StableSortSorts(Scores(entries, overlap));
    StableIsDistinct(Scores(entries, overlap), order);
    EscapedPick(entries, order);
    PickKeeps(Escaped(entries), order);
  }

  // -------------------------------------------------------- the plan itself

  function BlockFor(p: Position, overlap: Overlap): Block {
    Block(p.id, Ids(Sorted(p.bullets, overlap)))
  }

  function BlocksFor(experience: seq<Position>, overlap: Overlap): (r: seq<Block>)
    ensures |r| == |experience|
    ensures forall i :: 0 <= i < |r| ==> r[i] == BlockFor(experience[i], overlap)
  {
    seq(|experience|, i requires 0 <= i < |experience| => BlockFor(experience[i], overlap))
  }

  predicate BulletsMoved(p: Position, block: Block) {
    Moved(Ids(p.bullets), block.bulletIds)
  }

  ghost predicate PlanOf(document: Document, overlap: Overlap, plan: Plan) {
    && plan.skillOrder == Ids(Sorted(document.skills, overlap))
    && plan.experience == BlocksFor(document.experience, overlap)
  }

  ghost predicate AllOwnIds(experience: seq<Position>) {
    forall i :: 0 <= i < |experience| ==> OwnIds(experience[i].bullets)
  }

  /** Some position's bullets do not already fall in overlap. */
  ghost predicate SomeUnsorted(experience: seq<Position>, overlap: Overlap) {
    exists i :: 0 <= i < |experience| && !Falling(Scores(experience[i].bullets, overlap))
  }

  predicate SomeMoved(experience: seq<Position>, blocks: seq<Block>)
    requires |blocks| == |experience|
  {
    exists i :: 0 <= i < |blocks| && BulletsMoved(experience[i], blocks[i])
  }

  lemma SomeMovedExactly(experience: seq<Position>, overlap: Overlap)
    requires AllOwnIds(experience)
    ensures SomeMoved(experience, BlocksFor(experience, overlap)) <==> SomeUnsorted(experience, overlap)
  {
    var blocks := BlocksFor(experience, overlap);
    forall i | 0 <= i < |experience|
      ensures BulletsMoved(experience[i], blocks[i]) <==> !Falling(Scores(experience[i].bullets, overlap))
    {
      MovedExactly(experience[i].bullets, overlap);
    }
  }

  method PlanFor(document: Document, overlap: Overlap) returns (plan: Plan)
    ensures PlanOf(document, overlap, plan)
    ensures OwnIds(document.skills) ==> (plan.skillsChanged <==> !Falling(Scores(document.skills, overlap)))
    ensures AllOwnIds(document.experience) ==> (plan.bulletsChanged <==> SomeUnsorted(document.experience, overlap))
  {
    var skillOrder := Ids(Sorted(document.skills, overlap));
    var experience := BlocksFor(document.experience, overlap);
    var skillsChanged := Moved(Ids(document.skills), skillOrder);
    var bulletsChanged := SomeMoved(document.experience, experience);
    if OwnIds(document.skills) {
      MovedExactly(document.skills, overlap);
    }
    if AllOwnIds(document.experience) {
      SomeMovedExactly(document.experience, overlap);
    }
    plan := Plan(skillOrder, experience, skillsChanged, bulletsChanged);
  }

  // ------------------------------------------------------ the whole document

  datatype Article = Article(role: string, company: string, bullets: seq<string>)

  datatype Page = Page(skills: seq<string>, articles: seq<Article>)

  /** The position with the id: the last one. */
  function PositionById(experience: seq<Position>, id: string): Option<Position> {
    if experience == [] then None
    else if experience[|experience| - 1].id == id then Some(experience[|experience| - 1])
    else PositionById(experience[..|experience| - 1], id)
  }

  function ArticleOf(p: Position, bulletIds: seq<string>): Article {
    Article(EscapeHtml(p.role), EscapeHtml(p.company), Rendered(p.bullets, bulletIds))
  }

  /** One article per planned block; blocks of unknown positions are skipped. */
  function Articles(experience: seq<Position>, blocks: seq<Block>): seq<Article> {
    if blocks == [] then []
    else
      var last := blocks[|blocks| - 1];
      match PositionById(experience, last.id)
      case None => Articles(experience, blocks[..|blocks| - 1])
      case Some(p) => Articles(experience, blocks[..|blocks| - 1]) + [ArticleOf(p, last.bulletIds)]
  }

  function RenderHtml(document: Document, plan: Plan): Page {
    Page(Rendered(document.skills, plan.skillOrder), Articles(document.experience, plan.experience))
  }

  predicate SamePositions(experience: seq<Position>) {
    forall i, j :: 0 <= i < j < |experience| && experience[i].id == experience[j].id ==> experience[i] == experience[j]
  }

  /** One id stands for one thing, throughout the document. */
  predicate Consistent(document: Document) {
    && SameTexts(document.skills)
    && SamePositions(document.experience)
    && (forall i :: 0 <= i < |document.experience| ==> SameTexts(document.experience[i].bullets))
  }

  lemma {:induction false} PositionFound(experience: seq<Position>, k: nat)
    requires k < |experience|
    requires SamePositions(experience)
    ensures PositionById(experience, experience[k].id) == Some(experience[k])
  {
    var n := |experience| - 1;
    if experience[n].id != experience[k].id {
      PositionFound(experience[..n], k);
    }
  }

  /** The articles made from each position by its own block. */
  function OwnArticles(experience: seq<Position>, blocks: seq<Block>): (r: seq<Article>)
    requires |blocks| <= |experience|
    ensures |r| == |blocks|
    ensures forall i :: 0 <= i < |r| ==> r[i] == ArticleOf(experience[i], blocks[i].bulletIds)
  {
    seq(|blocks|, i requires 0 <= i < |blocks| => ArticleOf(experience[i], blocks[i].bulletIds))
  }

  /** With a block for each position, there is an article for each, made from its own position. */
  lemma {:induction false} ArticlesInOrder(experience: seq<Position>, blocks: seq<Block>)
    requires SamePositions(experience) && |blocks| <= |experience|
    requires forall i :: 0 <= i < |blocks| ==> blocks[i].id == experience[i].id
    ensures Articles(experience, blocks) == OwnArticles(experience, blocks)
  {
    if blocks != [] {
      var init, n := blocks[..|blocks| - 1], |blocks| - 1;
      ArticlesInOrder(experience, init);
      PositionFound(experience, n);
      LastArticle(experience, blocks, experience[n]);
      assert OwnArticles(experience, blocks) == OwnArticles(experience, init) + [ArticleOf(experience[n], blocks[n].bulletIds)];
    }
  }

  lemma LastArticle(experience: seq<Position>, blocks: seq<Block>, p: Position)
    requires blocks != [] && PositionById(experience, blocks[|blocks| - 1].id) == Some(p)
    ensures Articles(experience, blocks) ==
            Articles(experience, blocks[..|blocks| - 1]) + [ArticleOf(p, blocks[|blocks| - 1].bulletIds)]
  {
  }

  /** An article that shows a position: its headings, and its bullets in some order. */
  predicate Shows(article: Article, p: Position) {
    && article.role == EscapeHtml(p.role) && article.company == EscapeHtml(p.company)
    && multiset(article.bullets) == multiset(Escaped(p.bullets))
  }

  /**
   * Tailoring a document only permutes it: the page shows every skill as often as it was there, and
   * the positions in their order, each with its own headings and all of its own bullets.
   */
  lemma TailoringPermutes(document: Document, overlap: Overlap, plan: Plan)
    requires Consistent(document) && PlanOf(document, overlap, plan)
    ensures var page := RenderHtml(document, plan);
            && multiset(page.skills) == multiset(Escaped(document.skills))
            && |page.articles| == |document.experience|
            && forall i :: 0 <= i < |page.articles| ==> Shows(page.articles[i], document.experience[i])
  {
    RenderingPermutes(document.skills, overlap);
    ArticlesInOrder(document.experience, plan.experience);
    forall i | 0 <= i < |document.experience|
      ensures Shows(RenderHtml(document, plan).articles[i], document.experience[i])
    {
      RenderingPermutes(document.experience[i].bullets, overlap);
    }
  }
}
