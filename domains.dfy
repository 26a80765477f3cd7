/**
 * The domain search page: a non-blank query starts a delayed search whose
 * results pair the query's base name with the first six popular extensions.
 * Availability is a coin flip per result, supplied by the caller. Prices are
 * in cents.
 */
module DomainSearch {
  import opened Common

  datatype Tld = Tld(extension: string, priceCents: int, renewalCents: int)

  const PopularTlds: seq<Tld> := [
    Tld(".com", 1299, 1499), Tld(".net", 1199, 1399), Tld(".org", 1099, 1299), Tld(".io", 3999, 4999),
    Tld(".co", 999, 2499), Tld(".dev", 1499, 1699), Tld(".app", 1499, 1699), Tld(".ai", 6999, 8999)]

  /** The number of extensions a search offers. */
  const ResultCount: int := 6

  /** The characters `String.prototype.trim` removes. */
  predicate IsSpace(c: char) {
    c in {' ', '\t', '\n', '\r', '\U{000B}', '\U{000C}', '\U{00A0}', '\U{1680}', '\U{2028}', '\U{2029}',
          '\U{202F}', '\U{205F}', '\U{3000}', '\U{FEFF}'}
    || '\U{2000}' <= c <= '\U{200A}'
  }

  /** `!query.trim()`: nothing but white space. */
  predicate Blank(q: string): (blank: bool)
    ensures q == "" ==> blank
    ensures blank && q != "" ==> IsSpace(q[0]) && IsSpace(q[|q| - 1])
  {
    forall i :: 0 <= i < |q| ==> IsSpace(q[i])
  }

  /** How many letters end the string. */
  function TrailingLetters(s: string): (n: nat)
    ensures n <= |s|
    ensures forall i :: |s| - n <= i < |s| ==> IsLetter(s[i])
    ensures n < |s| ==> !IsLetter(s[|s| - n - 1])
  {
    if s == [] || !IsLetter(s[|s| - 1]) then 0 else 1 + TrailingLetters(s[..|s| - 1])
  }

  /** `replace(/\.[a-z]+$/i, '')`: a final '.' followed by one or more letters is dropped. */
  function StripTld(s: string): (r: string)
    ensures r == s || (|r| + 2 <= |s| && s[..|r|] == r && s[|r|] == '.'
                       && forall i :: |r| < i < |s| ==> IsLetter(s[i]))
  {
    var n := TrailingLetters(s);
    if 0 < n < |s| && s[|s| - n - 1] == '.' then s[..|s| - n - 1] else s
  }

  /** The base name of a search: the query, untrimmed, without its extension, lower-cased. */
  function BaseName(query: string): (base: string)
    ensures |base| <= |query|
    ensures base == Lower(query[..|base|])
    ensures forall i :: 0 <= i < |base| ==> !IsUpper(base[i])
  {
    Lower(StripTld(query))
  }

  datatype SearchResult = SearchResult(domain: string, available: bool, priceCents: int)

  /** The results for a base name, with one availability draw per extension. */
  function Results(base: string, available: seq<bool>): (rs: seq<SearchResult>)
    requires |available| == ResultCount
    ensures |rs| == ResultCount
    ensures forall i :: 0 <= i < |rs| ==>
      rs[i] == SearchResult(base + PopularTlds[i].extension, available[i], PopularTlds[i].priceCents)
  {
    seq(ResultCount, i requires 0 <= i < ResultCount =>
      SearchResult(base + PopularTlds[i].extension, available[i], PopularTlds[i].priceCents))
  }

  class DomainSearchPage {
    var query: string
    var isSearching: bool
    var results: Option<seq<SearchResult>>
    /** The queries captured by the timers still pending, oldest first (they all wait 1.5 s). */
    var timers: seq<string>

    predicate Valid()
      reads this
    {
      isSearching ==> timers != []
    }

    constructor ()
      ensures Valid() && query == "" && !isSearching && results == None && timers == []
    {
      query, isSearching, results, timers := "", false, None, [];
    }

    /** Typing into the search box. */
    method SetQuery(q: string)
      requires Valid()
      modifies this
      ensures Valid() && query == q
      ensures isSearching == old(isSearching) && results == old(results) && timers == old(timers)
    {
      query := q;
    }

    /**
     * `handleSearch`: a blank query does nothing; otherwise the page shows a spinner and starts a
     * timer holding the query as it is now. The Enter key reaches this even while searching.
     */
    method HandleSearch()
      requires Valid()
      modifies this
      ensures Valid() && query == old(query) && results == old(results)
      ensures Blank(old(query)) ==> isSearching == old(isSearching) && timers == old(timers)
      ensures !Blank(old(query)) ==> isSearching && timers == old(timers) + [old(query)]
    {
      if Blank(query) {
        return;
      }
      isSearching := true;
      timers := timers + [query];
    }

    /** The oldest timer fires: its captured query's results replace the old ones and the spinner stops. */
    method TimerFires(available: seq<bool>)
      requires Valid() && timers != [] && |available| == ResultCount
      modifies this
      ensures Valid() && query == old(query)
      ensures results == Some(Results(BaseName(old(timers)[0]), available))
      ensures !isSearching && timers == old(timers)[1..]
    {
      results := Some(Results(BaseName(timers[0]), available));
      isSearching := false;
      timers := timers[1..];
    }
  }

  // ---------------------------------------------------------------------------
  // Properties

  lemma {:induction false} TrailingLettersAfterDot(b: string, t: string)
    requires forall i :: 0 <= i < |t| ==> IsLetter(t[i])
    ensures TrailingLetters(b + "." + t) == |t|
    decreases |t|
  {
    var s := b + "." + t;
    if t == [] {
      assert s[|s| - 1] == '.';
    } else {
      assert s[..|s| - 1] == b + "." + t[..|t| - 1];
      TrailingLettersAfterDot(b, t[..|t| - 1]);
    }
  }

  /** A query "name.ext" with a letters-only extension searches for "name". */
  lemma StripTldDropsExtension(b: string, t: string)
    requires t != [] && forall i :: 0 <= i < |t| ==> IsLetter(t[i])
    ensures StripTld(b + "." + t) == b
  {
    TrailingLettersAfterDot(b, t);
    var s := b + "." + t;
    assert s[|s| - |t| - 1] == '.';
    assert s[..|s| - |t| - 1] == b;
  }

  /** A query that does not end in a letter, or has no '.', is searched for as typed (lower-cased). */
  lemma StripTldKeeps(s: string)
    requires s == [] || !IsLetter(s[|s| - 1]) || '.' !in s
    ensures StripTld(s) == s
  {
  }

  /**
   * For a query ending in "." and letters, the base name is everything before that dot, lower-cased:
   * only the last extension goes, and nothing is trimmed.
   */
  lemma BaseNameDropsLastExtension(b: string, t: string)
    requires t != [] && forall i :: 0 <= i < |t| ==> IsLetter(t[i])
    ensures BaseName(b + "." + t) == Lower(b)
    ensures |BaseName(b + "." + t)| == |b|
  {
    StripTldDropsExtension(b, t);
  }

  /** The six offered domains are pairwise distinct and each ends in its extension. */
  lemma ResultsDistinct(base: string, available: seq<bool>)
    requires |available| == ResultCount
    ensures var rs := Results(base, available);
      forall i, j :: 0 <= i < j < |rs| ==> rs[i].domain != rs[j].domain
  {
    var rs := Results(base, available);
    forall i, j | 0 <= i < j < |rs|
      ensures rs[i].domain != rs[j].domain
    {
      assert rs[i].domain[|base|..] == PopularTlds[i].extension;
      assert rs[j].domain[|base|..] == PopularTlds[j].extension;
    }
  }
}
