/** The startup search screen: the list of all startups, narrowed by a
    case-insensitive match of the typed text against each name. */
module SearchStartup {
  import opened Wrappers
  import opened Text
  import opened Records

  /** `s.nomeStartup.toLowerCase().includes(termo)`. */
  predicate NameMatches(s: StartupSummary, termo: string) {
    Contains(ToLower(s.nomeStartup), termo)
  }

  /** `data.filter(s => NameMatches(s, termo))`. */
  function FilterByName(data: seq<StartupSummary>, termo: string): (r: seq<StartupSummary>)
    ensures |r| <= |data|
    ensures forall s :: s in r <==> s in data && NameMatches(s, termo)
  {
    if data == [] then []
    else if NameMatches(data[0], termo) then [data[0]] + FilterByName(data[1..], termo)
    else FilterByName(data[1..], termo)
  }

  /** `r` is `data` with some elements left out, the rest in their order. */
  predicate IsSubsequence(r: seq<StartupSummary>, data: seq<StartupSummary>)
    decreases |data|
  {
    if data == [] then r == []
    else (r != [] && r[0] == data[0] && IsSubsequence(r[1..], data[1..])) || IsSubsequence(r, data[1..])
  }

  lemma {:induction false} FilterIsSubsequence(data: seq<StartupSummary>, termo: string)
    ensures IsSubsequence(FilterByName(data, termo), data)
  {
    if data != [] {
      FilterIsSubsequence(data[1..], termo);
      if NameMatches(data[0], termo) {
        var r := FilterByName(data, termo);
        assert r[0] == data[0] && r[1..] == FilterByName(data[1..], termo);
      }
    }
  }

  /** Every copy of a matching entry is kept and no other: the filter
      changes the multiplicities only by dropping non-matching entries. */
  lemma {:induction false} FilterKeepsEveryCopy(data: seq<StartupSummary>, termo: string, s: StartupSummary)
    ensures multiset(FilterByName(data, termo))[s] == if NameMatches(s, termo) then multiset(data)[s] else 0
  {
    if data != [] {
      FilterKeepsEveryCopy(data[1..], termo, s);
      assert data == [data[0]] + data[1..];
    }
  }

  /** The list shown for `query`: everything when the query is blank,
      else the startups whose lowercased name contains the lowercased
      query, which is not trimmed. */
  function Visible(startups: seq<StartupSummary>, query: string): (r: seq<StartupSummary>)
    ensures Trim(query) == "" ==> r == startups
    ensures Trim(query) != "" ==> forall s :: s in r <==> s in startups && NameMatches(s, ToLower(query))
    ensures |r| <= |startups|
  {
    if Trim(query) == "" then startups else FilterByName(startups, ToLower(query))
  }

  /** The shown list is always the full list in order, with some left out. */
  lemma VisibleIsSubsequence(startups: seq<StartupSummary>, query: string)
    ensures IsSubsequence(Visible(startups, query), startups)
  {
    if Trim(query) == "" {
      FilterIsSubsequence(startups, "");
      assert FilterByName(startups, "") == startups by {
        FilterAllOnEmpty(startups);
      }
    } else {
      FilterIsSubsequence(startups, ToLower(query));
    }
  }

  /** The empty term is contained in every name, so it keeps everything. */
  lemma {:induction false} FilterAllOnEmpty(data: seq<StartupSummary>)
    ensures FilterByName(data, "") == data
  {
    if data != [] {
      assert OccursAt(ToLower(data[0].nomeStartup), "", 0);
      FilterAllOnEmpty(data[1..]);
    }
  }

  lemma LowerCharIdempotent(c: char)
    ensures LowerChar(LowerChar(c)) == LowerChar(c)
    ensures IsSpace(LowerChar(c)) <==> IsSpace(c)
  {
  }

  /** The case in which the query is typed does not change the list. */
  lemma {:induction false} VisibleCaseInsensitive(startups: seq<StartupSummary>, query: string)
    ensures Visible(startups, query) == Visible(startups, ToLower(query))
  {
    var lq := ToLower(query);
    forall i | 0 <= i < |query| ensures lq[i] == LowerChar(query[i]) && IsSpace(lq[i]) == IsSpace(query[i]) {
      LowerCharIdempotent(query[i]);
    }
    assert ToLower(lq) == lq by {
      forall i | 0 <= i < |query| ensures ToLower(lq)[i] == lq[i] {
        LowerCharIdempotent(query[i]);
      }
    }
    TrimEmptyIffBlank(query);
    TrimEmptyIffBlank(lq);
    assert IsBlank(query) <==> IsBlank(lq);
  }

  /** The alert text after a failed load: the translation key of the
      message, a comma and the error. */
  function LoadAlert(err: string): (a: string)
    ensures |a| == |LoadErrorKey| + 2 + |err| && LoadErrorKey <= a && a[|a| - |err|..] == err
    ensures a[|LoadErrorKey|..|LoadErrorKey| + 2] == ", "
  {
    LoadErrorKey + ", " + err
  }

  const LoadErrorKey: string := "logs.errorLoadingStartups"

  /** The screen's state: all startups, the shown ones, the typed query and
      the two spinners. */
  class SearchScreen {
    var startups: seq<StartupSummary>
    var filtered: seq<StartupSummary>
    var query: string
    var loading: bool
    var refreshing: bool

    /** The shown list is the rule applied to the current data and query. */
    predicate ShowsQuery()
      reads this
    {
      filtered == Visible(startups, query)
    }

    constructor ()
      ensures startups == [] && filtered == [] && query == "" && loading && !refreshing
      ensures ShowsQuery()
    {
      startups := [];
      filtered := [];
      query := "";
      loading := true;
      refreshing := false;
    }

    /** `handleSearch(text)`: the query becomes the text and the list is
        narrowed to it; the data and the spinners are not touched. */
    method HandleSearch(text: string)
      modifies this
      ensures query == text
      ensures filtered == Visible(startups, text)
      ensures startups == old(startups) && loading == old(loading) && refreshing == old(refreshing)
      ensures ShowsQuery()
    {
      query := text;
      if Trim(text) == "" {
        filtered := startups;
        return;
      }
      var termo := ToLower(text);
      filtered := FilterByName(startups, termo);
    }

    /** The successful half of `loadStartups`: the new data, with the
        current query applied to it again. */
    method SetStartups(data: seq<StartupSummary>)
      modifies this
      ensures startups == data && filtered == Visible(data, query)
      ensures query == old(query) && loading == old(loading) && refreshing == old(refreshing)
    {
      startups := data;
      if Trim(query) != "" {
        var termo := ToLower(query);
        filtered := FilterByName(data, termo);
      } else {
        filtered := data;
      }
    }

    /** `loadStartups`, given the outcome of fetching all startups: new data
        replaces the old and the current query is applied to it again; a
        failure leaves both lists and yields the alert text. Both spinners
        are off afterwards. */
    method LoadStartups(fetched: Result<seq<StartupSummary>, string>) returns (alert: Option<string>)
      modifies this
      ensures fetched.Success? ==> startups == fetched.value && filtered == Visible(fetched.value, old(query)) && alert == None
      ensures fetched.Failure? ==>
        (startups == old(startups) && filtered == old(filtered)
         && alert == Some(LoadAlert(fetched.error)))
      ensures query == old(query) && !loading && !refreshing
      ensures fetched.Success? ==> ShowsQuery()
    {
      refreshing := true;
      alert := None;
      match fetched {
        case Success(data) =>
          SetStartups(data);
        case Failure(err) =>
          alert := Some(LoadAlert(err));
      }
      loading := false;
      refreshing := false;
    }
  }
}
