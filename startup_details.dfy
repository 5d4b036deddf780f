/** The startup page: the YouTube id of its video, the owner test, the
    ratings list with its mean, the collapsed/expanded view of the ratings,
    and the "already linked" mark of the skill picker. */
module StartupDetails {
  import opened Wrappers
  import opened Text
  import opened Records

  // ---------------------------------------------------------------------
  // extractYT: /(?:youtu\.be\/|youtube\.com\/(?:watch\?v=|embed\/))([a-zA-Z0-9_-]{11})/
  // ---------------------------------------------------------------------

  /** `[a-zA-Z0-9_-]`. */
  predicate IdChar(c: char) { IsAsciiAlnum(c) || c == '_' || c == '-' }

  const ShortPrefix: string := "youtu.be/"
  const WatchPrefix: string := "youtube.com/watch?v="
  const EmbedPrefix: string := "youtube.com/embed/"

  /** The branch of the pattern that starts with `prefix` matches at `i`:
      `prefix` occurs there and eleven id characters follow it. */
  predicate MatchesWith(s: string, i: int, prefix: string) {
    0 <= i && i + |prefix| + 11 <= |s| && prefix <= s[i..]
    && forall k :: i + |prefix| <= k < i + |prefix| + 11 ==> IdChar(s[k])
  }

  /** The captured group when the pattern matches at position `i`, the
      alternatives tried in the order written. */
  function MatchAt(s: string, i: int): (m: Option<string>)
    ensures m.Some? <==> MatchesWith(s, i, ShortPrefix) || MatchesWith(s, i, WatchPrefix) || MatchesWith(s, i, EmbedPrefix)
    ensures m.Some? ==> |m.value| == 11 && forall k :: 0 <= k < 11 ==> IdChar(m.value[k])
  {
    if MatchesWith(s, i, ShortPrefix) then Some(s[i + |ShortPrefix|..i + |ShortPrefix| + 11])
    else if MatchesWith(s, i, WatchPrefix) then Some(s[i + |WatchPrefix|..i + |WatchPrefix| + 11])
    else if MatchesWith(s, i, EmbedPrefix) then Some(s[i + |EmbedPrefix|..i + |EmbedPrefix| + 11])
    else None
  }

  /** The outcome of trying the pattern at every position 0..|s| of `s`. */
  function Matches(s: string): (ms: seq<Option<string>>)
    ensures |ms| == |s| + 1 && forall i :: 0 <= i <= |s| ==> ms[i] == MatchAt(s, i)
  {
    seq(|s| + 1, i requires 0 <= i <= |s| => MatchAt(s, i))
  }

  /** `String.prototype.match` of an unanchored pattern: the first position
      from `i` on where it matches wins. */
  function FirstFound(ms: seq<Option<string>>, i: nat): Option<string>
    requires i <= |ms|
    decreases |ms| - i
  {
    if i == |ms| then None
    else if ms[i].Some? then ms[i]
    else FirstFound(ms, i + 1)
  }

  /** The search returns the entry of the leftmost position that has one. */
  lemma {:induction false} FirstFoundLeftmost(ms: seq<Option<string>>, i: nat)
    requires i <= |ms|
    ensures FirstFound(ms, i).Some? ==>
      exists p :: i <= p < |ms| && ms[p] == FirstFound(ms, i) && forall q :: i <= q < p ==> ms[q].None?
    ensures FirstFound(ms, i).None? ==> forall q :: i <= q < |ms| ==> ms[q].None?
    decreases |ms| - i
  {
    if i < |ms| && ms[i].None? {
      FirstFoundLeftmost(ms, i + 1);
      if FirstFound(ms, i).Some? {
        var p :| i + 1 <= p < |ms| && ms[p] == FirstFound(ms, i + 1) && forall q :: i + 1 <= q < p ==> ms[q].None?;
        assert forall q :: i <= q < p ==> ms[q].None?;
      }
    }
  }

  /** `extractYT`: null for a missing or empty URL, else the captured id of
      the leftmost match, or null when nothing matches. */
  function ExtractYT(url: Option<string>): (id: Option<string>)
    ensures !Truthy(url) ==> id == None
    ensures id.Some? ==> |id.value| == 11 && forall k :: 0 <= k < 11 ==> IdChar(id.value[k])
  {
    if !Truthy(url) then None
    else
      FirstFoundLeftmost(Matches(url.value), 0);
      FirstFound(Matches(url.value), 0)
  }

  /** A found id is what the pattern captures at the leftmost position where
      it matches; no id means no position matches. */
  lemma ExtractYTLeftmost(url: string)
    requires url != ""
    ensures ExtractYT(Some(url)).Some? ==>
      exists p :: 0 <= p <= |url| && MatchAt(url, p) == ExtractYT(Some(url))
        && forall q :: 0 <= q < p ==> MatchAt(url, q).None?
    ensures ExtractYT(Some(url)).None? ==> forall q :: 0 <= q <= |url| ==> MatchAt(url, q).None?
  {
    var ms := Matches(url);
    FirstFoundLeftmost(ms, 0);
    if ExtractYT(Some(url)).Some? {
      var p :| 0 <= p < |ms| && ms[p] == FirstFound(ms, 0) && forall q :: 0 <= q < p ==> ms[q].None?;
      assert MatchAt(url, p) == ExtractYT(Some(url));
      assert forall q :: 0 <= q < p ==> MatchAt(url, q).None? by {
        forall q | 0 <= q < p ensures MatchAt(url, q).None? { assert ms[q] == MatchAt(url, q); }
      }
    } else {
      forall q | 0 <= q <= |url| ensures MatchAt(url, q).None? { assert ms[q] == MatchAt(url, q); }
    }
  }

  /** The short-link form yields its id. */
  lemma ExtractShortLink()
    ensures ExtractYT(Some("youtu.be/abcdefghijk")) == Some("abcdefghijk")
  {
    var s := "youtu.be/abcdefghijk";
    assert MatchesWith(s, 0, ShortPrefix) by {
      assert s[0..] == s;
      assert ShortPrefix <= s;
    }
    assert s[9..20] == "abcdefghijk";
    assert Matches(s)[0] == MatchAt(s, 0) == Some("abcdefghijk");
  }

  // ---------------------------------------------------------------------
  // Ratings, owner test and skills
  // ---------------------------------------------------------------------

  /** `isOwner`: both CPFs present, non-empty and equal. */
  function IsOwner(startupCpf: Option<string>, userCpf: Option<string>): (owner: bool)
    ensures owner ==> startupCpf == userCpf && startupCpf.Some? && startupCpf.value != ""
    ensures startupCpf == userCpf && Truthy(startupCpf) ==> owner
  {
    Truthy(startupCpf) && Truthy(userCpf) && startupCpf.value == userCpf.value
  }

  /** `a.nota ?? 0`. */
  function NotaOrZero(a: Review): int {
    a.nota.GetOr(0)
  }

  function SumNotas(avaliacoes: seq<Review>): int {
    if avaliacoes == [] then 0 else SumNotas(avaliacoes[..|avaliacoes| - 1]) + NotaOrZero(avaliacoes[|avaliacoes| - 1])
  }

  /** `media`: 0 without ratings, else the mean with missing notes as 0. */
  function Media(avaliacoes: seq<Review>): (m: real)
    ensures avaliacoes == [] ==> m == 0.0
    ensures avaliacoes != [] ==> m * |avaliacoes| as real == SumNotas(avaliacoes) as real
  {
    if avaliacoes == [] then 0.0 else SumNotas(avaliacoes) as real / |avaliacoes| as real
  }

  /** Every present note lies on the 0..10 scale of the rating input. */
  predicate NotesInScale(avaliacoes: seq<Review>) {
    forall k :: 0 <= k < |avaliacoes| ==> 0 <= NotaOrZero(avaliacoes[k]) <= 10
  }

  lemma {:induction false} SumNotasBounds(avaliacoes: seq<Review>)
    requires NotesInScale(avaliacoes)
    ensures 0 <= SumNotas(avaliacoes) <= 10 * |avaliacoes|
  {
    if avaliacoes != [] {
      var init := avaliacoes[..|avaliacoes| - 1];
      assert forall k :: 0 <= k < |init| ==> init[k] == avaliacoes[k];
      SumNotasBounds(init);
    }
  }

  lemma QuotientBounds(a: real, n: real, hi: real)
    requires n > 0.0 && 0.0 <= a <= hi * n
    ensures 0.0 <= a / n <= hi
  {
    assert a / n * n == a;
  }

  /** With notes on the 0..10 scale the mean is on it too, so the stars
      value `media / 2` is between 0 and 5. */
  lemma MediaInScale(avaliacoes: seq<Review>)
    requires NotesInScale(avaliacoes)
    ensures 0.0 <= Media(avaliacoes) <= 10.0
    ensures 0.0 <= Media(avaliacoes) / 2.0 <= 5.0
  {
    if avaliacoes != [] {
      SumNotasBounds(avaliacoes);
      assert (10 * |avaliacoes|) as real == 10.0 * |avaliacoes| as real;
      QuotientBounds(SumNotas(avaliacoes) as real, |avaliacoes| as real, 10.0);
    }
  }

  /** `visibleAvaliacoes`: all ratings when expanded, else `slice(0, 1)`. */
  function VisibleAvaliacoes(expanded: bool, avaliacoes: seq<Review>): (v: seq<Review>)
    ensures expanded ==> v == avaliacoes
    ensures !expanded ==> v <= avaliacoes && |v| == (if avaliacoes == [] then 0 else 1)
  {
    if expanded || |avaliacoes| <= 1 then avaliacoes else avaliacoes[..1]
  }

  /** The "see all / see less" button exists only for more than one rating. */
  predicate ShowsExpandToggle(avaliacoes: seq<Review>) {
    |avaliacoes| > 1
  }

  datatype Habilidade = Habilidade(idHabilidade: int, nomeHabilidade: string, tipoHabilidade: string)

  /** A `possui` link of the startup; `habilidade` may be missing. */
  datatype Possui = Possui(habilidade: Option<Habilidade>)

  /** `possuiList.some((p) => p.habilidade?.idHabilidade === id)`. */
  function AlreadyLinked(possuiList: seq<Possui>, id: int): bool {
    if possuiList == [] then false
    else
      (possuiList[0].habilidade.Some? && possuiList[0].habilidade.value.idHabilidade == id)
      || AlreadyLinked(possuiList[1..], id)
  }

  lemma {:induction false} AlreadyLinkedIff(possuiList: seq<Possui>, id: int)
    ensures AlreadyLinked(possuiList, id) <==>
      exists k :: 0 <= k < |possuiList| && possuiList[k].habilidade.Some?
        && possuiList[k].habilidade.value.idHabilidade == id
  {
    if possuiList != [] {
      AlreadyLinkedIff(possuiList[1..], id);
      assert forall k :: 0 < k < |possuiList| ==> possuiList[k] == possuiList[1..][k - 1];
      if AlreadyLinked(possuiList[1..], id) {
        var k :| 0 <= k < |possuiList[1..]| && possuiList[1..][k].habilidade.Some?
          && possuiList[1..][k].habilidade.value.idHabilidade == id;
        assert possuiList[k + 1] == possuiList[1..][k];
      }
    }
  }

  /** The ratings part of the page state. */
  class DetailsState {
    var avaliacoes: seq<Review>
    var expandedAval: bool

    constructor (loaded: seq<Review>)
      ensures avaliacoes == loaded && !expandedAval
    {
      avaliacoes := loaded;
      expandedAval := false;
    }

    function Visible(): seq<Review>
      reads this
    {
      VisibleAvaliacoes(expandedAval, avaliacoes)
    }

    /** `prependAvaliacao`: the new rating first, the others after it in order. */
    method PrependAvaliacao(a: Review)
      modifies this
      ensures avaliacoes == [a] + old(avaliacoes)
      ensures avaliacoes[0] == a && avaliacoes[1..] == old(avaliacoes)
      ensures expandedAval == old(expandedAval)
      ensures !expandedAval ==> Visible() == [a]
    {
      avaliacoes := [a] + avaliacoes;
    }

    /** A press on the expand button, which is only drawn for more than one
        rating: it flips `expandedAval`. */
    method PressExpandToggle()
      modifies this
      ensures ShowsExpandToggle(avaliacoes) ==> expandedAval == !old(expandedAval)
      ensures !ShowsExpandToggle(avaliacoes) ==> expandedAval == old(expandedAval)
      ensures avaliacoes == old(avaliacoes)
    {
      if ShowsExpandToggle(avaliacoes) {
        expandedAval := !expandedAval;
      }
    }
  }
}
