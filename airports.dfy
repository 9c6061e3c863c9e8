/** The airport list: loading it from the CSV text (`loadAirportsData`) and
    the search that fills the suggestion list (`showSuggestions`).

    JavaScript's `parseFloat` is a parameter (`parseFloat`, `None` for `NaN`):
    its floating-point behaviour is not part of the model. */
module Airports {
  import opened Optional
  import opened Strings

  datatype Airport = Airport(code: string, city: string, country: string, lat: real, lon: real)

  /** The most suggestions shown at once. */
  const MaxSuggestions := 10

  /** One CSV line as a record: fields 0-2 are code, city and country, fields
      3 and 4 the coordinates; a missing field is `undefined`, whose
      `parseFloat` is `NaN`, so a line is kept only when both coordinate
      fields are present and parse. */
  function ParseRow(line: string, parseFloat: string -> Option<real>): (r: Option<Airport>)
    ensures var v := Split(line, ',');
      r.Some? <==> |v| >= 5 && parseFloat(v[3]).Some? && parseFloat(v[4]).Some?
    ensures var v := Split(line, ',');
      r.Some? ==> r.value == Airport(v[0], v[1], v[2], parseFloat(v[3]).value, parseFloat(v[4]).value)
  {
    var values := Split(line, ',');
    var lat := if |values| > 3 then parseFloat(values[3]) else None;
    var lon := if |values| > 4 then parseFloat(values[4]) else None;
    if lat.None? || lon.None? then None
    else Some(Airport(values[0], values[1], values[2], lat.value, lon.value))
  }

  /** What one data line contributes: nothing for a blank line (one whose
      `trim()` is empty and so falsy, which `Strings.Trim` shows is exactly
      `IsBlank`), otherwise its record when it has one. */
  function RowRecords(line: string, parseFloat: string -> Option<real>): seq<Airport>
  {
    if IsBlank(line) then []
    else match ParseRow(line, parseFloat)
      case Some(a) => [a]
      case None => []
  }

  /** `f` applied to each element of `xs`, the results concatenated in the
      order of `xs`. */
  function FlatMap<T, U>(f: T -> seq<U>, xs: seq<T>): seq<U>
  {
    if xs == [] then [] else FlatMap(f, xs[..|xs| - 1]) + f(xs[|xs| - 1])
  }

  lemma FlatMapSnoc<T, U>(f: T -> seq<U>, xs: seq<T>, x: T)
    ensures FlatMap(f, xs + [x]) == FlatMap(f, xs) + f(x)
  {
    assert (xs + [x])[..|xs|] == xs;
  }

  lemma {:induction false} FlatMapAppend<T, U>(f: T -> seq<U>, a: seq<T>, b: seq<T>)
    ensures FlatMap(f, a + b) == FlatMap(f, a) + FlatMap(f, b)
    decreases |b|
  {
    if b == [] {
      assert a + b == a;
    } else {
      var b', last := b[..|b| - 1], b[|b| - 1];
      assert b == b' + [last];
      assert a + b == (a + b') + [last];
      calc {
        FlatMap(f, a + b);
        { FlatMapSnoc(f, a + b', last); }
        FlatMap(f, a + b') + f(last);
        { FlatMapAppend(f, a, b'); }
        FlatMap(f, a) + FlatMap(f, b') + f(last);
        { FlatMapSnoc(f, b', last); }
        FlatMap(f, a) + FlatMap(f, b);
      }
    }
  }

  /** Every element of a flattened list comes from the result of `f` on some
      element of `xs`. */
  lemma {:induction false} FlatMapFrom<T, U>(f: T -> seq<U>, xs: seq<T>, k: nat)
    requires k < |FlatMap(f, xs)|
    ensures exists i, j :: 0 <= i < |xs| && 0 <= j < |f(xs[i])| && f(xs[i])[j] == FlatMap(f, xs)[k]
  {
    var init, last := xs[..|xs| - 1], xs[|xs| - 1];
    if k < |FlatMap(f, init)| {
      FlatMapFrom(f, init, k);
      var i, j :| 0 <= i < |init| && 0 <= j < |f(init[i])| && f(init[i])[j] == FlatMap(f, init)[k];
      assert xs[i] == init[i];
    } else {
      var j := k - |FlatMap(f, init)|;
      assert f(xs[|xs| - 1])[j] == FlatMap(f, xs)[k];
    }
  }

  /** The records of the data lines `rows`: each line's records, in the order
      of the lines. */
  function Loaded(rows: seq<string>, parseFloat: string -> Option<real>): seq<Airport>
  {
    FlatMap(line => RowRecords(line, parseFloat), rows)
  }

  /** The loop of `loadAirportsData`: split the text into lines, skip line 0
      (the header), and push the record of every other line that has one. */
  method LoadAirports(data: string, parseFloat: string -> Option<real>) returns (airports: seq<Airport>)
    ensures airports == Loaded(Split(data, '\n')[1..], parseFloat)
  {
    var lines := Split(data, '\n');
    airports := [];
    for i := 1 to |lines|
      invariant airports == Loaded(lines[1..i], parseFloat)
    {
      LoadedSnoc(lines[1..i], lines[i], parseFloat);
      assert lines[1..i + 1] == lines[1..i] + [lines[i]];
      if IsBlank(lines[i]) {
        continue;
      }
      var record := ParseRow(lines[i], parseFloat);
      if record.Some? {
        airports := airports + [record.value];
      }
    }
    assert lines[1..|lines|] == lines[1..];
  }

  /** One more data line adds its own records at the end. */
  lemma LoadedSnoc(rows: seq<string>, line: string, parseFloat: string -> Option<real>)
    ensures Loaded(rows + [line], parseFloat) == Loaded(rows, parseFloat) + RowRecords(line, parseFloat)
  {
    FlatMapSnoc(line => RowRecords(line, parseFloat), rows, line);
  }

  /** Loading distributes over concatenation of the data lines: each line is
      read on its own and the records keep the order of the lines. */
  lemma LoadedAppend(a: seq<string>, b: seq<string>, parseFloat: string -> Option<real>)
    ensures Loaded(a + b, parseFloat) == Loaded(a, parseFloat) + Loaded(b, parseFloat)
  {
    FlatMapAppend(line => RowRecords(line, parseFloat), a, b);
  }

  /** A line with no comma is never kept, so a blank line would be dropped
      even without the explicit blank-line test, and so is any line with
      fewer than five fields. */
  lemma ShortRowDropped(line: string, parseFloat: string -> Option<real>)
    requires |Split(line, ',')| < 5
    ensures RowRecords(line, parseFloat) == []
  {
  }

  /** Every loaded record is the record of one of the data lines, and that
      line is not blank. */
  lemma LoadedFromRows(rows: seq<string>, parseFloat: string -> Option<real>, k: nat)
    requires k < |Loaded(rows, parseFloat)|
    ensures exists i :: 0 <= i < |rows| && !IsBlank(rows[i]) &&
                        ParseRow(rows[i], parseFloat) == Some(Loaded(rows, parseFloat)[k])
  {
    var f := line => RowRecords(line, parseFloat);
    FlatMapFrom(f, rows, k);
    var i, j :| 0 <= i < |rows| && 0 <= j < |f(rows[i])| && f(rows[i])[j] == FlatMap(f, rows)[k];
    assert RowRecords(rows[i], parseFloat) != [];
  }

  /** A loaded list never has more records than there are data lines. */
  lemma {:induction false} LoadedLength(rows: seq<string>, parseFloat: string -> Option<real>)
    ensures |Loaded(rows, parseFloat)| <= |rows|
  {
    if rows != [] {
      LoadedLength(rows[..|rows| - 1], parseFloat);
    }
  }

  /** The search test of `showSuggestions`: the lower-cased query occurs in
      the lower-cased code, city or country. */
  predicate Matches(a: Airport, query: string)
  {
    var q := Lower(query);
    Contains(Lower(a.code), q) || Contains(Lower(a.city), q) || Contains(Lower(a.country), q)
  }

  /** The empty query matches every airport, a code given in any case
      matches its own airport, and a query longer than all three fields
      matches nothing. */
  lemma MatchesBounds(a: Airport, query: string)
    ensures query == [] ==> Matches(a, query)
    ensures Lower(query) == Lower(a.code) ==> Matches(a, query)
    ensures Matches(a, query) ==> |query| <= |a.code| || |query| <= |a.city| || |query| <= |a.country|
  {
    var q := Lower(query);
    ContainsBounds(Lower(a.code), q);
    ContainsBounds(Lower(a.city), q);
    ContainsBounds(Lower(a.country), q);
  }

  /** The query is lower-cased before it is compared, so its case does not
      matter. */
  lemma MatchesIgnoresQueryCase(a: Airport, query: string)
    ensures Matches(a, query) <==> Matches(a, Lower(query))
  {
    LowerIdempotent(query);
  }

  /** `airports.filter(...)`: the matching records, in dataset order. */
  function FilterMatches(airports: seq<Airport>, query: string): (r: seq<Airport>)
    ensures |r| <= |airports|
    ensures forall a :: a in r <==> a in airports && Matches(a, query)
  {
    if airports == [] then []
    else (if Matches(airports[0], query) then [airports[0]] else []) + FilterMatches(airports[1..], query)
  }

  /** Filtering distributes over concatenation, so matches keep their
      relative dataset order. */
  lemma {:induction false} FilterAppend(a: seq<Airport>, b: seq<Airport>, query: string)
    ensures FilterMatches(a + b, query) == FilterMatches(a, query) + FilterMatches(b, query)
  {
    if a == [] {
      assert a + b == b;
    } else {
      assert (a + b)[1..] == a[1..] + b;
      FilterAppend(a[1..], b, query);
    }
  }

  /** `.filter(...).slice(0, 10)`: the first ten matches at most. */
  function Search(airports: seq<Airport>, query: string): (r: seq<Airport>)
    ensures |r| <= MaxSuggestions
    ensures forall a :: a in r ==> a in airports && Matches(a, query)
  {
    var all := FilterMatches(airports, query);
    if |all| <= MaxSuggestions then all else all[..MaxSuggestions]
  }

  /** The suggestions are the earliest matches in dataset order: every match
      in a prefix of the dataset that has at most ten matches is suggested,
      in the same order, at the start of the list; the list itself is a
      prefix of the matches, so nothing else is suggested; and fewer than ten
      suggestions means every match is suggested. */
  lemma SearchIsFirstMatches(airports: seq<Airport>, query: string, k: nat)
    requires k <= |airports|
    requires |FilterMatches(airports[..k], query)| <= MaxSuggestions
    ensures FilterMatches(airports[..k], query) <= Search(airports, query)
    ensures Search(airports, query) <= FilterMatches(airports, query)
    ensures |Search(airports, query)| < MaxSuggestions ==>
              Search(airports, query) == FilterMatches(airports, query)
  {
    var pre := FilterMatches(airports[..k], query);
    var all := FilterMatches(airports, query);
    assert airports == airports[..k] + airports[k..];
    FilterAppend(airports[..k], airports[k..], query);
    assert pre <= all;
    if |all| > MaxSuggestions {
      assert all[..MaxSuggestions][..|pre|] == pre;
    }
  }
}
