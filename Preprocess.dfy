/** The offline preprocessing of the publisher index (Strategist/preprocess_vectorize.py):
    streaming the two book dumps into primary-keyed tables through a bounded insert
    buffer, grouping the joined books by publisher, selecting each publisher's profile,
    and upserting the profiles in fixed-size chunks. JSON decoding, the embedding and
    BM25 encoders, and the database and vector store are inputs or plain values here;
    floating-point ratings are left out. */
module Preprocess {
  import opened Wrappers
  import opened Text
  import opened Ranking

  // ---------------------------------------------------------------------------
  // Sequences of batches
  // ---------------------------------------------------------------------------

  /** The batches one after the other. */
  function Flatten<T>(xs: seq<seq<T>>): seq<T> {
    if xs == [] then [] else Flatten(xs[..|xs| - 1]) + xs[|xs| - 1]
  }

  lemma FlattenSnoc<T>(xs: seq<seq<T>>, b: seq<T>)
    ensures Flatten(xs + [b]) == Flatten(xs) + b
  {
    assert (xs + [b])[..|xs|] == xs;
  }

  // ---------------------------------------------------------------------------
  // Ingestion
  // ---------------------------------------------------------------------------

  /** Rows are written when the pending batch reaches this size. */
  const BatchLimit: nat := 10000

  /** The rows the accepted lines yield, in order. */
  function Accepted<L, R>(lines: seq<L>, accept: L -> Option<R>): seq<R> {
    if lines == [] then []
    else
      var last := accept(lines[|lines| - 1]);
      Accepted(lines[..|lines| - 1], accept) + (if last.Some? then [last.value] else [])
  }

  /** `INSERT OR IGNORE` into a table keyed by `key`: a row whose key is already there is
      dropped. */
  function InsertOrIgnore<R>(table: map<string, R>, rows: seq<R>, key: R -> string): map<string, R> {
    if rows == [] then table
    else
      var t := InsertOrIgnore(table, rows[..|rows| - 1], key);
      var r := rows[|rows| - 1];
      if key(r) in t then t else t[key(r) := r]
  }

  /** Inserting two batches is inserting their concatenation. */
  lemma {:induction false} InsertOrIgnoreAppend<R>(table: map<string, R>, a: seq<R>, b: seq<R>, key: R -> string)
    ensures InsertOrIgnore(table, a + b, key) == InsertOrIgnore(InsertOrIgnore(table, a, key), b, key)
    decreases |b|
  {
    if b == [] {
      assert a + b == a;
    } else {
      var init := b[..|b| - 1];
      assert (a + b)[..|a + b| - 1] == a + init;
      assert (a + b)[|a + b| - 1] == b[|b| - 1];
      InsertOrIgnoreAppend(table, a, init, key);
    }
  }

  /** The first row with a key wins: a key is in the table when it was there before or
      some row carries it; a key already there keeps its row, and a new key holds the
      first row carrying it. */
  lemma {:induction false} FirstWins<R>(table: map<string, R>, rows: seq<R>, key: R -> string, k: string)
    ensures k in InsertOrIgnore(table, rows, key) <==> k in table || exists i :: 0 <= i < |rows| && key(rows[i]) == k
    ensures k in table ==> InsertOrIgnore(table, rows, key)[k] == table[k]
    ensures forall i :: 0 <= i < |rows| && k !in table && key(rows[i]) == k
                        && (forall j :: 0 <= j < i ==> key(rows[j]) != k) ==>
              InsertOrIgnore(table, rows, key)[k] == rows[i]
  {
    if rows != [] {
      var init := rows[..|rows| - 1];
      var r := rows[|rows| - 1];
      FirstWins(table, init, key, k);
      var t := InsertOrIgnore(table, init, key);
      if exists i :: 0 <= i < |init| && key(init[i]) == k {
        var i :| 0 <= i < |init| && key(init[i]) == k;
        assert rows[i] == init[i];
      }
      if exists i :: 0 <= i < |rows| && key(rows[i]) == k {
        var i :| 0 <= i < |rows| && key(rows[i]) == k;
        if i < |init| {
          assert init[i] == rows[i];
        }
      }
      forall i | 0 <= i < |rows| && k !in table && key(rows[i]) == k && (forall j :: 0 <= j < i ==> key(rows[j]) != k)
        ensures InsertOrIgnore(table, rows, key)[k] == rows[i]
      {
        if i < |init| {
          assert init[i] == rows[i];
          assert forall j :: 0 <= j < i ==> init[j] == rows[j];
        } else {
          assert forall j :: 0 <= j < |init| ==> init[j] == rows[j];
        }
      }
    }
  }

  /** The streaming loop of `process_goodreads` and `process_openlibrary`: every line
      the row rule accepts is appended to the pending batch; a batch that reaches the
      limit is written, and what is left is written at the end. Every accepted row is
      written once, in order, in batches of the limit but for the last, which is never
      empty; the table is the insertion of all of them. */
  method Ingest<L, R>(table0: map<string, R>, lines: seq<L>, accept: L -> Option<R>, key: R -> string)
    returns (table: map<string, R>, writes: seq<seq<R>>)
    ensures Flatten(writes) == Accepted(lines, accept)
    ensures forall j :: 0 <= j < |writes| ==> 0 < |writes[j]| <= BatchLimit
    ensures forall j :: 0 <= j < |writes| - 1 ==> |writes[j]| == BatchLimit
    ensures table == InsertOrIgnore(table0, Accepted(lines, accept), key)
  {
    table := table0;
    writes := [];
    var batch: seq<R> := [];
    for i := 0 to |lines|
      invariant Flatten(writes) + batch == Accepted(lines[..i], accept)
      invariant |batch| < BatchLimit
      invariant forall j :: 0 <= j < |writes| ==> |writes[j]| == BatchLimit
      invariant table == InsertOrIgnore(table0, Flatten(writes), key)
    {
      assert lines[..i + 1][..i] == lines[..i];
      var row := accept(lines[i]);
      assert Accepted(lines[..i + 1], accept)
             == Accepted(lines[..i], accept) + (if row.Some? then [row.value] else []);
      if row.Some? {
        table, writes, batch := Buffer(table0, table, writes, batch, row.value, key);
      }
    }
    assert lines[..|lines|] == lines;
    if batch != [] {
      table, writes := Flush(table0, table, writes, batch, key);
    }
  }

  /** One accepted row: appended to the pending batch, which is written once it reaches
      the limit. Nothing is lost or reordered, and the batch stays below the limit. */
  method Buffer<R>(table0: map<string, R>, table: map<string, R>, writes: seq<seq<R>>, batch: seq<R>,
                   row: R, key: R -> string)
    returns (table': map<string, R>, writes': seq<seq<R>>, batch': seq<R>)
    requires |batch| < BatchLimit
    requires forall j :: 0 <= j < |writes| ==> |writes[j]| == BatchLimit
    requires table == InsertOrIgnore(table0, Flatten(writes), key)
    ensures Flatten(writes') + batch' == Flatten(writes) + batch + [row]
    ensures |batch'| < BatchLimit
    ensures forall j :: 0 <= j < |writes'| ==> |writes'[j]| == BatchLimit
    ensures table' == InsertOrIgnore(table0, Flatten(writes'), key)
  {
    batch' := batch + [row];
    if |batch'| >= BatchLimit {
      table', writes' := Flush(table0, table, writes, batch', key);
      batch' := [];
    } else {
      table', writes' := table, writes;
    }
  }

  /** `executemany` of one buffered batch: the batch is written after the earlier ones,
      and the table stays the insertion of everything written. */
  method Flush<R>(table0: map<string, R>, table: map<string, R>, writes: seq<seq<R>>, batch: seq<R>,
                  key: R -> string)
    returns (table': map<string, R>, writes': seq<seq<R>>)
    requires table == InsertOrIgnore(table0, Flatten(writes), key)
    ensures writes' == writes + [batch]
    ensures Flatten(writes') == Flatten(writes) + batch
    ensures table' == InsertOrIgnore(table0, Flatten(writes'), key)
  {
    InsertOrIgnoreAppend(table0, Flatten(writes), batch, key);
    FlattenSnoc(writes, batch);
    table' := InsertOrIgnore(table, batch, key);
    writes' := writes + [batch];
  }

  // ---------------------------------------------------------------------------
  // Row rules
  // ---------------------------------------------------------------------------

  /** A decoded Goodreads line. `isbn13` is `None` when the value is not a string (its
      `strip` raises; an absent key reads as ""); `ratingParses` and `ratingsCount`
      say whether `float(...)` and `int(...)` succeed. */
  datatype GoodreadsBook = GoodreadsBook(
    isbn13: Option<string>,
    description: string,
    ratingParses: bool,
    ratingsCount: Option<int>,
    shelves: string)

  /** A `goodreads` row, without the average rating. */
  datatype GoodreadsRow = GoodreadsRow(isbn13: string, blurb: string, ratingsCount: int, shelves: string)

  /** The row of one Goodreads line; `None` is a line that does not decode. A line is
      skipped when it does not decode, when any conversion raises, and when its stripped
      isbn13 is empty. */
  function AcceptGoodreads(line: Option<GoodreadsBook>): (r: Option<GoodreadsRow>)
    ensures r.Some? <==> line.Some? && line.value.isbn13.Some? && !IsBlank(line.value.isbn13.value)
                         && line.value.ratingParses && line.value.ratingsCount.Some?
    ensures r.Some? ==> r.value.isbn13 == Strip(line.value.isbn13.value) && r.value.isbn13 != ""
                        && Trimmed(r.value.isbn13)
                        && r.value.blurb == line.value.description
                        && r.value.ratingsCount == line.value.ratingsCount.value
  {
    if line.None? || line.value.isbn13.None? then None
    else
      var book := line.value;
      var isbn := Strip(book.isbn13.value);
      StripEmptyIff(book.isbn13.value);
      StripTrimmed(book.isbn13.value);
      if isbn == "" then None
      else if !book.ratingParses || book.ratingsCount.None? then None
      else Some(GoodreadsRow(isbn, book.description, book.ratingsCount.value, book.shelves))
  }

  function GoodreadsKey(r: GoodreadsRow): string {
    r.isbn13
  }

  /** The fifth column of an OpenLibrary line, decoded: `isbn_13` and `publishers` are
      `[]` when absent, `title` is `None` when absent. */
  datatype OpenLibraryBook = OpenLibraryBook(
    isbn13: seq<string>,
    title: Option<string>,
    publishers: seq<string>,
    subjects: string)

  datatype OpenLibraryRow = OpenLibraryRow(isbn13: string, title: string, publisher: string, genres: string)

  /** The tab-separated columns of a stripped line. */
  function Columns(line: string): seq<string> {
    Split(Strip(line), '\t')
  }

  /** The row of one OpenLibrary line; `decode` is `json.loads`, `None` when it raises. */
  function AcceptOpenLibrary(line: string, decode: string -> Option<OpenLibraryBook>): (r: Option<OpenLibraryRow>)
    ensures r.Some? <==> |Columns(line)| >= 5 && decode(Columns(line)[4]).Some?
                         && decode(Columns(line)[4]).value.isbn13 != []
                         && decode(Columns(line)[4]).value.publishers != []
    ensures r.Some? ==>
              var book := decode(Columns(line)[4]).value;
              && r.value.isbn13 == Strip(book.isbn13[0])
              && r.value.publisher == book.publishers[0]
              && r.value.title == (if book.title.Some? then book.title.value else "Unknown")
  {
    var cols := Columns(line);
    if |cols| < 5 then None
    else match decode(cols[4])
      case None => None
      case Some(book) =>
        if book.isbn13 == [] || book.publishers == [] then None
        else Some(OpenLibraryRow(Strip(book.isbn13[0]), book.title.GetOr("Unknown"), book.publishers[0], book.subjects))
  }

  function OpenLibraryKey(r: OpenLibraryRow): string {
    r.isbn13
  }

  // ---------------------------------------------------------------------------
  // Counters
  // ---------------------------------------------------------------------------

  /** A `Counter`: keys in first-seen order with their counts. */
  type Counter = seq<(string, nat)>

  predicate DistinctKeys(c: Counter) {
    forall i, j :: 0 <= i < j < |c| ==> c[i].0 != c[j].0
  }

  /** `c[x]`: 0 for a key not there. */
  function CountOf(c: Counter, x: string): nat {
    if c == [] then 0 else if c[0].0 == x then c[0].1 else CountOf(c[1..], x)
  }

  /** One more `x`: its count goes up by one, or it is added at the end. */
  function AddOne(c: Counter, x: string): Counter {
    if c == [] then [(x, 1)]
    else if c[0].0 == x then [(x, c[0].1 + 1)] + c[1..]
    else [c[0]] + AddOne(c[1..], x)
  }

  /** `c.update(items)`. */
  function CounterUpdate(c: Counter, items: seq<string>): Counter {
    if items == [] then c else AddOne(CounterUpdate(c, items[..|items| - 1]), items[|items| - 1])
  }

  /** `c[x] += 1` on a counter with distinct keys: the keys stay distinct, only `x`'s
      count goes up, and no key but `x` is new. */
  lemma AddOneSpec(c: Counter, x: string, y: string)
    requires DistinctKeys(c)
    ensures DistinctKeys(AddOne(c, x))
    ensures CountOf(AddOne(c, x), y) == CountOf(c, y) + (if x == y then 1 else 0)
    ensures forall k :: k in AddOne(c, x) ==> k.0 == x || k.0 in Keys(c)
  {
    AddOneDistinct(c, x);
    AddOneCount(c, x, y);
    AddOneKeys(c, x);
  }

  lemma {:induction false} AddOneCount(c: Counter, x: string, y: string)
    ensures CountOf(AddOne(c, x), y) == CountOf(c, y) + (if x == y then 1 else 0)
  {
    if c != [] {
      var r := AddOne(c, x);
      if c[0].0 == x {
        assert r[1..] == c[1..];
      } else {
        AddOneCount(c[1..], x, y);
        assert r[0] == c[0] && r[1..] == AddOne(c[1..], x);
      }
    }
  }

  lemma {:induction false} AddOneKeys(c: Counter, x: string)
    ensures forall k :: k in AddOne(c, x) ==> k.0 == x || k.0 in Keys(c)
  {
    KeysOf(c);
    if c != [] {
      var r := AddOne(c, x);
      if c[0].0 == x {
        forall k | k in r ensures k.0 == x || k.0 in Keys(c) {
          var i :| 0 <= i < |r| && r[i] == k;
          if i > 0 {
            assert k == c[i];
          }
        }
      } else {
        var tail := c[1..];
        AddOneKeys(tail, x);
        KeysOf(tail);
        forall k | k in r ensures k.0 == x || k.0 in Keys(c) {
          if k != c[0] {
            assert k in AddOne(tail, x);
            if k.0 in Keys(tail) {
              var i :| 0 <= i < |tail| && tail[i].0 == k.0;
              assert c[i + 1] == tail[i];
            }
          }
        }
      }
    }
  }

  lemma {:induction false} AddOneDistinct(c: Counter, x: string)
    requires DistinctKeys(c)
    ensures DistinctKeys(AddOne(c, x))
  {
    if c != [] {
      var r := AddOne(c, x);
      if c[0].0 == x {
        forall i, j | 0 <= i < j < |r| ensures r[i].0 != r[j].0 {
          if i > 0 {
            assert r[i] == c[i] && r[j] == c[j];
          } else {
            assert r[j] == c[j];
          }
        }
      } else {
        var tail := c[1..];
        assert DistinctKeys(tail);
        AddOneDistinct(tail, x);
        AddOneKeys(tail, x);
        var rt := AddOne(tail, x);
        KeysOf(tail);
        forall k | k in rt ensures k.0 != c[0].0 {
          if k.0 in Keys(tail) {
            var i :| 0 <= i < |tail| && tail[i].0 == k.0;
            assert c[i + 1] == tail[i];
          }
        }
        forall i, j | 0 <= i < j < |r| ensures r[i].0 != r[j].0 {
          assert r[j] == rt[j - 1];
          if i > 0 {
            assert r[i] == rt[i - 1];
          } else {
            assert rt[j - 1] in rt;
          }
        }
      }
    }
  }

  /** The keys of a counter, in order. */
  function Keys(c: Counter): (r: seq<string>)
    ensures |r| == |c|
    ensures forall i :: 0 <= i < |c| ==> r[i] == c[i].0
  {
    seq(|c|, i requires 0 <= i < |c| => c[i].0)
  }

  lemma KeysOf(c: Counter)
    ensures forall k :: k in Keys(c) <==> exists i :: 0 <= i < |c| && c[i].0 == k
  {
    forall k | k in Keys(c) ensures exists i :: 0 <= i < |c| && c[i].0 == k {
      var i :| 0 <= i < |Keys(c)| && Keys(c)[i] == k;
    }
    forall k | exists i :: 0 <= i < |c| && c[i].0 == k ensures k in Keys(c) {
      var i :| 0 <= i < |c| && c[i].0 == k;
      assert Keys(c)[i] == k;
    }
  }

  /** `Counter.update` counts every occurrence: each key's count grows by the number of
      times it occurs in the items, and keys stay distinct. */
  lemma {:induction false} CounterUpdateSpec(c: Counter, items: seq<string>, y: string)
    requires DistinctKeys(c)
    ensures DistinctKeys(CounterUpdate(c, items))
    ensures CountOf(CounterUpdate(c, items), y) == CountOf(c, y) + multiset(items)[y]
  {
    if items != [] {
      var init := items[..|items| - 1];
      var x := items[|items| - 1];
      CounterUpdateSpec(c, init, y);
      AddOneSpec(CounterUpdate(c, init), x, y);
      assert items == init + [x];
    }
  }

  // ---------------------------------------------------------------------------
  // Grouping by publisher
  // ---------------------------------------------------------------------------

  /** A line of the merged file. A missing title or blurb reads as "", which every later
      filter treats as a null would be treated. */
  datatype MergedBook = MergedBook(
    publisher: string,
    title: string,
    blurb: string,
    ratingsCount: int,
    genres: seq<string>,
    shelves: seq<string>)

  datatype BookSummary = BookSummary(title: string, blurb: string, ratingsCount: int)

  /** A publisher's running totals, without the rating sum. */
  datatype PubStats = PubStats(
    vol: nat,
    totalRatings: int,
    genres: Counter,
    shelves: Counter,
    books: seq<BookSummary>)

  const NoStats: PubStats := PubStats(0, 0, [], [], [])

  /** The grouping key of a book. */
  function PubOf(b: MergedBook): string {
    Strip(b.publisher)
  }

  /** Books without a publisher, or from "unknown publisher" in any case, are ignored. */
  predicate Ignored(pub: string) {
    pub == "" || Lower(pub) == "unknown publisher"
  }

  function Summary(b: MergedBook): BookSummary {
    BookSummary(b.title, b.blurb, b.ratingsCount)
  }

  /** One more book for a publisher. */
  function AddBook(p: PubStats, b: MergedBook): PubStats {
    PubStats(p.vol + 1, p.totalRatings + b.ratingsCount, CounterUpdate(p.genres, b.genres),
             CounterUpdate(p.shelves, b.shelves), p.books + [Summary(b)])
  }

  /** The `publishers` dictionary: its keys in insertion order and its values. */
  datatype Groups = Groups(order: seq<string>, stats: map<string, PubStats>)

  /** The grouping of the books, one after the other. */
  function Group(books: seq<MergedBook>): Groups {
    if books == [] then Groups([], map[])
    else
      var g := Group(books[..|books| - 1]);
      var b := books[|books| - 1];
      var pub := PubOf(b);
      if Ignored(pub) then g
      else if pub in g.stats then Groups(g.order, g.stats[pub := AddBook(g.stats[pub], b)])
      else Groups(g.order + [pub], g.stats[pub := AddBook(NoStats, b)])
  }

  /** The first loop of `aggregate_and_fit_bm25`. */
  method Aggregate(books: seq<MergedBook>) returns (order: seq<string>, stats: map<string, PubStats>)
    ensures Groups(order, stats) == Group(books)
  {
    order := [];
    stats := map[];
    for i := 0 to |books|
      invariant Groups(order, stats) == Group(books[..i])
    {
      assert books[..i + 1][..i] == books[..i];
      var pub := Strip(books[i].publisher);
      if pub == "" || Lower(pub) == "unknown publisher" {
        continue;
      }
      if pub !in stats {
        order := order + [pub];
        stats := stats[pub := NoStats];
      }
      var p := stats[pub];
      stats := stats[pub := AddBook(p, books[i])];
    }
    assert books[..|books|] == books;
  }

  /** The books of one publisher, in order. */
  function BooksOf(books: seq<MergedBook>, pub: string): seq<MergedBook> {
    if books == [] then []
    else BooksOf(books[..|books| - 1], pub) + (if PubOf(books[|books| - 1]) == pub then [books[|books| - 1]] else [])
  }

  function Summaries(books: seq<MergedBook>): seq<BookSummary> {
    if books == [] then [] else Summaries(books[..|books| - 1]) + [Summary(books[|books| - 1])]
  }

  function SumRatings(books: seq<MergedBook>): int {
    if books == [] then 0 else SumRatings(books[..|books| - 1]) + books[|books| - 1].ratingsCount
  }

  /** Every genre, with repetitions, of the books. */
  function AllGenres(books: seq<MergedBook>): seq<string> {
    if books == [] then [] else AllGenres(books[..|books| - 1]) + books[|books| - 1].genres
  }

  /** Every shelf, with repetitions, of the books. */
  function AllShelves(books: seq<MergedBook>): seq<string> {
    if books == [] then [] else AllShelves(books[..|books| - 1]) + books[|books| - 1].shelves
  }

  /** The grouping keeps one entry per publisher that is not ignored, in the order of
      first appearance: the keys are distinct, exactly the dictionary's, and never an
      ignored name. */
  lemma {:induction false} GroupKeys(books: seq<MergedBook>)
    ensures forall i, j :: 0 <= i < j < |Group(books).order| ==> Group(books).order[i] != Group(books).order[j]
    ensures forall pub :: pub in Group(books).stats <==> pub in Group(books).order
    ensures forall pub :: pub in Group(books).stats ==> !Ignored(pub)
  {
    if books != [] {
      var init := books[..|books| - 1];
      GroupKeys(init);
      var g0 := Group(init);
      var pub := PubOf(books[|books| - 1]);
      if !Ignored(pub) && pub !in g0.stats {
        var g := Group(books);
        assert g.order == g0.order + [pub];
        assert g.stats == g0.stats[pub := AddBook(NoStats, books[|books| - 1])];
        forall x ensures x in g.stats <==> x in g.order {
          assert x in g.order <==> x in g0.order || x == pub;
          assert x in g0.stats <==> x in g0.order;
        }
      }
    }
  }

  /** The books one after the other added to an empty entry. */
  function Fold(books: seq<MergedBook>): PubStats {
    if books == [] then NoStats else AddBook(Fold(books[..|books| - 1]), books[|books| - 1])
  }

  /** The entry of a publisher, or an empty one. */
  function EntryOf(g: Groups, pub: string): PubStats {
    if pub in g.stats then g.stats[pub] else NoStats
  }

  /** A publisher that is not ignored has an entry exactly when some book names it, and
      the entry is its books added one after the other. */
  lemma {:induction false} GroupIsFold(books: seq<MergedBook>, pub: string)
    requires !Ignored(pub)
    ensures pub in Group(books).stats <==> BooksOf(books, pub) != []
    ensures EntryOf(Group(books), pub) == Fold(BooksOf(books, pub))
  {
    if books != [] {
      var init := books[..|books| - 1];
      var b := books[|books| - 1];
      GroupIsFold(init, pub);
      if PubOf(b) == pub {
        assert EntryOf(Group(books), pub) == AddBook(EntryOf(Group(init), pub), b);
        var now := BooksOf(init, pub) + [b];
        assert BooksOf(books, pub) == now;
        assert now[..|now| - 1] == BooksOf(init, pub);
        assert Fold(now) == AddBook(Fold(BooksOf(init, pub)), b);
      } else {
        assert BooksOf(books, pub) == BooksOf(init, pub) + [];
        assert BooksOf(init, pub) + [] == BooksOf(init, pub);
        assert EntryOf(Group(books), pub) == EntryOf(Group(init), pub);
      }
    }
  }

  /** An entry counts the books, sums their ratings counts, lists them in order, and
      counts every genre and shelf of theirs under distinct keys. */
  lemma {:induction false} FoldSpec(books: seq<MergedBook>, genre: string, shelf: string)
    ensures var p := Fold(books);
            && p.vol == |books|
            && p.totalRatings == SumRatings(books)
            && p.books == Summaries(books)
            && DistinctKeys(p.genres) && DistinctKeys(p.shelves)
            && CountOf(p.genres, genre) == multiset(AllGenres(books))[genre]
            && CountOf(p.shelves, shelf) == multiset(AllShelves(books))[shelf]
  {
    if books != [] {
      var init := books[..|books| - 1];
      var b := books[|books| - 1];
      FoldSpec(init, genre, shelf);
      CounterUpdateSpec(Fold(init).genres, b.genres, genre);
      CounterUpdateSpec(Fold(init).shelves, b.shelves, shelf);
    }
  }

  /** For a publisher that is not ignored: it has an entry exactly when some book names
      it, and the entry counts its books, sums their ratings counts, lists them in
      order, and counts every genre and shelf of theirs. */
  lemma GroupSpec(books: seq<MergedBook>, pub: string, genre: string, shelf: string)
    requires !Ignored(pub)
    ensures pub in Group(books).stats <==> BooksOf(books, pub) != []
    ensures var p := EntryOf(Group(books), pub);
            var mine := BooksOf(books, pub);
            && p.vol == |mine|
            && p.totalRatings == SumRatings(mine)
            && p.books == Summaries(mine)
            && CountOf(p.genres, genre) == multiset(AllGenres(mine))[genre]
            && CountOf(p.shelves, shelf) == multiset(AllShelves(mine))[shelf]
  {
    GroupIsFold(books, pub);
    FoldSpec(BooksOf(books, pub), genre, shelf);
  }

  // ---------------------------------------------------------------------------
  // Profiles
  // ---------------------------------------------------------------------------

  /** A publisher profile, without the average rating; the id is an input because the
      source derives it from the per-process string hash, and the keyword set is a set
      because the source takes it from `set()`, whose order is not fixed. */
  datatype Profile = Profile(
    publisherId: string,
    publisherName: string,
    volume: nat,
    compTitles: seq<string>,
    activeGenres: seq<string>,
    denseText: string,
    sparseKeywords: set<string>)

  function RatingsOf(b: BookSummary): int {
    b.ratingsCount
  }

  function CountKey(e: (string, nat)): int {
    e.1
  }

  /** `[k for k, c in counter.most_common(n)]`: `most_common` is a stable sort by count,
      largest first, cut to `n`. */
  function MostCommon(c: Counter, n: nat): seq<string> {
    Keys(Take(SortDesc(c, CountKey), n))
  }

  function TitleOf(b: BookSummary): string {
    b.title
  }

  function BlurbOf(b: BookSummary): string {
    b.blurb
  }

  /** `[f(b) for b in books if f(b)]`: the non-empty values of one field, in order. */
  function Picked(books: seq<BookSummary>, f: BookSummary -> string): (r: seq<string>)
    ensures |r| <= |books|
  {
    if books == [] then []
    else (if f(books[0]) != "" then [f(books[0])] else []) + Picked(books[1..], f)
  }

  /** A value is picked exactly when it is non-empty and some book has it. */
  lemma {:induction false} PickedMembers(books: seq<BookSummary>, f: BookSummary -> string)
    ensures forall t :: t in Picked(books, f) <==> t != "" && exists i :: 0 <= i < |books| && f(books[i]) == t
  {
    if books != [] {
      var rest := books[1..];
      PickedMembers(rest, f);
      forall t ensures t in Picked(books, f) <==> t != "" && exists i :: 0 <= i < |books| && f(books[i]) == t {
        if t != "" && t != f(books[0]) && (exists i :: 0 <= i < |books| && f(books[i]) == t) {
          var i :| 0 <= i < |books| && f(books[i]) == t;
          assert rest[i - 1] == books[i];
        }
        if t in Picked(rest, f) {
          var i :| 0 <= i < |rest| && f(rest[i]) == t;
          assert books[i + 1] == rest[i];
        }
      }
    }
  }

  /** Picking from a concatenation picks from each part in turn: the picked values keep
      the books' order. */
  lemma {:induction false} PickedAppend(a: seq<BookSummary>, b: seq<BookSummary>, f: BookSummary -> string)
    ensures Picked(a + b, f) == Picked(a, f) + Picked(b, f)
  {
    if a == [] {
      assert a + b == b;
    } else {
      var head := if f(a[0]) != "" then [f(a[0])] else [];
      assert (a + b)[0] == a[0];
      assert (a + b)[1..] == a[1..] + b;
      assert Picked(a + b, f) == head + Picked(a[1..] + b, f);
      PickedAppend(a[1..], b, f);
      assert Picked(a, f) == head + Picked(a[1..], f);
    }
  }

  /** One book gives its value exactly when the value is non-empty. */
  lemma PickedOne(x: BookSummary, f: BookSummary -> string)
    ensures Picked([x], f) == if f(x) != "" then [f(x)] else []
  {
    assert [x][1..] == [];
  }

  /** The comparable titles `[b["title"] for b in books if b["title"]]`: exactly the
      non-empty titles of the books. */
  function Titles(books: seq<BookSummary>): (r: seq<string>)
    ensures |r| <= |books|
    ensures forall t :: t in r <==> t != "" && exists i :: 0 <= i < |books| && books[i].title == t
  {
    PickedMembers(books, TitleOf);
    Picked(books, TitleOf)
  }

  /** The top blurbs `[b["blurb"] for b in books if b["blurb"]]`: exactly the non-empty
      blurbs of the books. */
  function Blurbs(books: seq<BookSummary>): (r: seq<string>)
    ensures |r| <= |books|
    ensures forall t :: t in r <==> t != "" && exists i :: 0 <= i < |books| && books[i].blurb == t
  {
    PickedMembers(books, BlurbOf);
    Picked(books, BlurbOf)
  }

  function DenseText(name: string, blurbs: seq<string>): string {
    "Publisher: " + name + "\n\nTop Books:\n" + Join("\n---\n", blurbs)
  }

  /** The profile of one publisher. */
  function MakeProfile(name: string, p: PubStats, idOf: string -> string): Profile {
    var sorted := SortDesc(p.books, RatingsOf);
    var genres := MostCommon(p.genres, 10);
    var shelves := MostCommon(p.shelves, 10);
    Profile(idOf(name), name, p.vol, Titles(Take(sorted, 5)), genres,
            DenseText(name, Blurbs(Take(sorted, 15))),
            (set g | g in genres) + (set s | s in shelves))
  }

  /** The comparable titles are the non-empty titles among the five most-rated books,
      in rating order; the dense text is the header and the non-empty blurbs among the
      fifteen most-rated books; the active genres are at most ten, none counted less
      than a genre left out; the keywords are exactly the top genres and top shelves. */
  lemma MakeProfileSpec(name: string, p: PubStats, idOf: string -> string)
    ensures var r := MakeProfile(name, p, idOf);
            r.publisherName == name && r.volume == p.vol && r.publisherId == idOf(name)
    ensures var r := MakeProfile(name, p, idOf);
            var top := Take(SortDesc(p.books, RatingsOf), 5);
            && |r.compTitles| <= 5
            && r.compTitles == Titles(top)
            && (forall t :: t in r.compTitles <==> t != "" && exists i :: 0 <= i < |top| && top[i].title == t)
    ensures var r := MakeProfile(name, p, idOf);
            var top := Take(SortDesc(p.books, RatingsOf), 15);
            && r.denseText == "Publisher: " + name + "\n\nTop Books:\n" + Join("\n---\n", Blurbs(top))
            && (forall t :: t in Blurbs(top) <==> t != "" && exists i :: 0 <= i < |top| && top[i].blurb == t)
    ensures var r := MakeProfile(name, p, idOf);
            var byCount := SortDesc(p.genres, CountKey);
            && |r.activeGenres| <= 10 && |r.activeGenres| <= |p.genres|
            && r.activeGenres == Keys(byCount[..|r.activeGenres|])
            && (forall i, j :: 0 <= i < |r.activeGenres| <= j < |byCount| ==> byCount[i].1 >= byCount[j].1)
    ensures var r := MakeProfile(name, p, idOf);
            forall k :: k in r.sparseKeywords <==> k in r.activeGenres || k in MostCommon(p.shelves, 10)
  {
    var r := MakeProfile(name, p, idOf);
    var sorted := SortDesc(p.books, RatingsOf);
    assert r.compTitles == Titles(Take(sorted, 5));
    ActiveGenres(p.genres);
    assert r.activeGenres == MostCommon(p.genres, 10);
    assert r.denseText == DenseText(name, Blurbs(Take(sorted, 15)));
  }

  /** The books the profile draws on: `sorted(books, key=ratings_count, reverse=True)[:k]`
      is a prefix of a rating-ordered permutation of the books, and no book left out has
      more ratings than one kept. */
  lemma MostRated(p: PubStats, k: nat)
    ensures var sorted := SortDesc(p.books, RatingsOf);
            var top := Take(sorted, k);
            && multiset(sorted) == multiset(p.books)
            && |top| == (if |p.books| < k then |p.books| else k)
            && top == sorted[..|top|]
            && (forall i, j :: 0 <= i < j < |top| ==> top[i].ratingsCount >= top[j].ratingsCount)
            && (forall i, j :: 0 <= i < |top| <= j < |sorted| ==> top[i].ratingsCount >= sorted[j].ratingsCount)
  {
    SortDescSpec(p.books, RatingsOf);
    TopK(p.books, RatingsOf, k);
  }

  /** The ten most common genres: a prefix of the genres by count, none counted less
      than one left out. */
  lemma ActiveGenres(genres: Counter)
    ensures var g := MostCommon(genres, 10);
            var byCount := SortDesc(genres, CountKey);
            && |g| <= 10 && |g| <= |genres|
            && g == Keys(byCount[..|g|])
            && (forall i, j :: 0 <= i < |g| <= j < |byCount| ==> byCount[i].1 >= byCount[j].1)
  {
    TopK(genres, CountKey, 10);
  }

  /** The profiles, in the dictionary's order, of publishers with at least two books. */
  function Profiles(order: seq<string>, stats: map<string, PubStats>, idOf: string -> string): seq<Profile>
    requires forall i :: 0 <= i < |order| ==> order[i] in stats
  {
    if order == [] then []
    else
      var name := order[|order| - 1];
      Profiles(order[..|order| - 1], stats, idOf)
      + (if stats[name].vol < 2 then [] else [MakeProfile(name, stats[name], idOf)])
  }

  /** The second loop of `aggregate_and_fit_bm25`, without the file and BM25 writes. */
  method BuildProfiles(order: seq<string>, stats: map<string, PubStats>, idOf: string -> string)
    returns (profiles: seq<Profile>)
    requires forall i :: 0 <= i < |order| ==> order[i] in stats
    ensures profiles == Profiles(order, stats, idOf)
  {
    profiles := [];
    for i := 0 to |order|
      invariant profiles == Profiles(order[..i], stats, idOf)
    {
      assert order[..i + 1][..i] == order[..i];
      var data := stats[order[i]];
      if data.vol < 2 {
        continue;
      }
      profiles := profiles + [MakeProfile(order[i], data, idOf)];
    }
    assert order[..|order|] == order;
  }

  /** Only publishers with at least two books get a profile, and every one of them does:
      a name has a profile exactly when it is in the order with a volume of two or more. */
  lemma {:induction false} ProfilesSpec(order: seq<string>, stats: map<string, PubStats>, idOf: string -> string)
    requires forall i :: 0 <= i < |order| ==> order[i] in stats
    ensures |Profiles(order, stats, idOf)| <= |order|
    ensures forall r :: r in Profiles(order, stats, idOf) ==> r.volume >= 2
    ensures forall name :: (exists r :: r in Profiles(order, stats, idOf) && r.publisherName == name)
                           <==> name in order && stats[name].vol >= 2
  {
    if order != [] {
      var init := order[..|order| - 1];
      var name := order[|order| - 1];
      ProfilesSpec(init, stats, idOf);
      assert forall x :: x in order <==> x in init || x == name;
    }
  }

  // ---------------------------------------------------------------------------
  // Upsert
  // ---------------------------------------------------------------------------

  /** Profiles per embedding call and upsert. */
  const UpsertBatch: nat := 100

  /** Dense texts are cut to this many characters before embedding. */
  const TextLimit: nat := 8000

  datatype RecordMetadata = RecordMetadata(
    publisherName: string,
    publicationVolume: nat,
    recentCompTitles: seq<string>,
    activeGenres: seq<string>)

  /** One upserted vector: the dense values are of the embedder's type `V`, and the
      sparse values are the indices of the BM25 encoding. */
  datatype UpsertRecord<V> = UpsertRecord(
    id: string,
    values: V,
    metadata: RecordMetadata,
    sparseValues: Option<seq<int>>)

  /** `s[:n]`. */
  function Truncate(s: string, n: nat): (r: string)
    ensures |r| <= n && |r| <= |s| && r == s[..|r|]
    ensures |s| <= n ==> r == s
    ensures |s| > n ==> |r| == n
  {
    if |s| <= n then s else s[..n]
  }

  /** The record of one profile. `embed` gives the vector of one text, `encode` the
      indices of the keywords' sparse encoding, `None` for an empty encoding. */
  function Record<V>(p: Profile, embed: string -> V, encode: set<string> -> Option<seq<int>>): UpsertRecord<V> {
    var sv := encode(p.sparseKeywords);
    UpsertRecord(p.publisherId, embed(Truncate(p.denseText, TextLimit)),
                 RecordMetadata(p.publisherName, p.volume, p.compTitles, p.activeGenres),
                 if sv.Some? && |sv.value| > 0 then sv else None)
  }

  /** A record carries the profile's id and metadata and the embedding of its dense text
      cut to the limit; sparse values are attached exactly when the encoding has
      indices. */
  lemma RecordSpec<V>(p: Profile, embed: string -> V, encode: set<string> -> Option<seq<int>>)
    ensures var r := Record(p, embed, encode);
            && r.id == p.publisherId && r.metadata.publisherName == p.publisherName
            && r.values == embed(p.denseText[..if |p.denseText| <= TextLimit then |p.denseText| else TextLimit])
            && (r.sparseValues.Some? <==> encode(p.sparseKeywords).Some? && encode(p.sparseKeywords).value != [])
            && (r.sparseValues.Some? ==> r.sparseValues == encode(p.sparseKeywords))
  {
  }

  /** The records of the profiles, in order. */
  function Records<V>(ps: seq<Profile>, embed: string -> V, encode: set<string> -> Option<seq<int>>)
    : (r: seq<UpsertRecord<V>>)
    ensures |r| == |ps|
    ensures forall k :: 0 <= k < |ps| ==> r[k] == Record(ps[k], embed, encode)
  {
    seq(|ps|, k requires 0 <= k < |ps| => Record(ps[k], embed, encode))
  }

  /** The inner loop of `embed_and_upsert`: one record per profile of the chunk. */
  method AssemblePayload<V>(batch: seq<Profile>, embed: string -> V, encode: set<string> -> Option<seq<int>>)
    returns (payload: seq<UpsertRecord<V>>)
    ensures payload == Records(batch, embed, encode)
  {
    payload := [];
    for idx := 0 to |batch|
      invariant |payload| == idx
      invariant forall k :: 0 <= k < idx ==> payload[k] == Record(batch[k], embed, encode)
    {
      var p := batch[idx];
      var sv := encode(p.sparseKeywords);
      var record := UpsertRecord(p.publisherId, embed(Truncate(p.denseText, TextLimit)),
                                 RecordMetadata(p.publisherName, p.volume, p.compTitles, p.activeGenres), None);
      if sv.Some? && |sv.value| > 0 {
        record := record.(sparseValues := sv);
      }
      payload := payload + [record];
    }
  }

  /** `embed_and_upsert` after the index is created: the profiles in chunks of the batch
      size, each chunk one upsert. The upserts one after the other are the records of
      all profiles in order; there is one upsert per chunk, every one but the last is
      full, and none is empty. */
  method EmbedAndUpsert<V>(profiles: seq<Profile>, embed: string -> V, encode: set<string> -> Option<seq<int>>)
    returns (upserts: seq<seq<UpsertRecord<V>>>)
    ensures Flatten(upserts) == Records(profiles, embed, encode)
    ensures |upserts| == (|profiles| + UpsertBatch - 1) / UpsertBatch
    ensures forall j :: 0 <= j < |upserts| ==> 0 < |upserts[j]| <= UpsertBatch
    ensures forall j :: 0 <= j < |upserts| - 1 ==> |upserts[j]| == UpsertBatch
  {
    upserts := [];
    var i := 0;
    while i < |profiles|
      invariant i <= |profiles|
      invariant Flatten(upserts) == Records(profiles[..i], embed, encode)
      invariant i == |profiles| || i == UpsertBatch * |upserts|
      invariant i < |profiles| ==> |upserts| == i / UpsertBatch && i % UpsertBatch == 0
      invariant i == |profiles| ==> |upserts| == (|profiles| + UpsertBatch - 1) / UpsertBatch
      invariant forall j :: 0 <= j < |upserts| ==> 0 < |upserts[j]| <= UpsertBatch
      invariant forall j :: 0 <= j < |upserts| ==> |upserts[j]| == UpsertBatch || (j == |upserts| - 1 && i == |profiles|)
      decreases |profiles| - i
    {
      var end := if i + UpsertBatch <= |profiles| then i + UpsertBatch else |profiles|;
      var batch := profiles[i..end];
      var payload := AssemblePayload(batch, embed, encode);
      FlattenSnoc(upserts, payload);
      assert profiles[..end] == profiles[..i] + batch;
      RecordsAppend(profiles[..i], batch, embed, encode);
      upserts := upserts + [payload];
      i := end;
    }
    assert profiles[..i] == profiles;
  }

  lemma RecordsAppend<V>(a: seq<Profile>, b: seq<Profile>, embed: string -> V, encode: set<string> -> Option<seq<int>>)
    ensures Records(a + b, embed, encode) == Records(a, embed, encode) + Records(b, embed, encode)
  {
  }
}
