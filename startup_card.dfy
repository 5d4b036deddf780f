/** The home-page card of a startup: its video thumbnail, its five stars for
    the mean rating and its comment count. */
module StartupCard {
  import opened Wrappers
  import opened Text
  import opened Records
  import opened StarsDisplay
  import StartupDetails

  // ---------------------------------------------------------------------
  // extractYT: /(?:youtube\.com\/(?:watch\?v=|embed\/)|youtu\.be\/)([a-zA-Z0-9_-]{11})/
  // ---------------------------------------------------------------------

  /** The card's pattern tried at `i`: the same three alternatives as on the
      details page, the short link last. */
  function MatchAtCard(s: string, i: int): Option<string> {
    if StartupDetails.MatchesWith(s, i, StartupDetails.WatchPrefix)
    then Some(s[i + |StartupDetails.WatchPrefix|..i + |StartupDetails.WatchPrefix| + 11])
    else if StartupDetails.MatchesWith(s, i, StartupDetails.EmbedPrefix)
    then Some(s[i + |StartupDetails.EmbedPrefix|..i + |StartupDetails.EmbedPrefix| + 11])
    else if StartupDetails.MatchesWith(s, i, StartupDetails.ShortPrefix)
    then Some(s[i + |StartupDetails.ShortPrefix|..i + |StartupDetails.ShortPrefix| + 11])
    else None
  }

  /** At most one alternative can match at a position: "youtu.be/" and
      "youtube.com/" differ at their sixth character, "watch?v=" and
      "embed/" at their first. */
  lemma AlternativesExclusive(s: string, i: int)
    ensures !(StartupDetails.MatchesWith(s, i, StartupDetails.ShortPrefix) && StartupDetails.MatchesWith(s, i, StartupDetails.WatchPrefix))
    ensures !(StartupDetails.MatchesWith(s, i, StartupDetails.ShortPrefix) && StartupDetails.MatchesWith(s, i, StartupDetails.EmbedPrefix))
    ensures !(StartupDetails.MatchesWith(s, i, StartupDetails.WatchPrefix) && StartupDetails.MatchesWith(s, i, StartupDetails.EmbedPrefix))
  {
    if StartupDetails.MatchesWith(s, i, StartupDetails.ShortPrefix) {
      MatchedChar(s, i, StartupDetails.ShortPrefix, 5);
    }
    if StartupDetails.MatchesWith(s, i, StartupDetails.WatchPrefix) {
      MatchedChar(s, i, StartupDetails.WatchPrefix, 5);
      MatchedChar(s, i, StartupDetails.WatchPrefix, 12);
    }
    if StartupDetails.MatchesWith(s, i, StartupDetails.EmbedPrefix) {
      MatchedChar(s, i, StartupDetails.EmbedPrefix, 5);
      MatchedChar(s, i, StartupDetails.EmbedPrefix, 12);
    }
  }

  lemma MatchedChar(s: string, i: int, prefix: string, k: int)
    requires StartupDetails.MatchesWith(s, i, prefix) && 0 <= k < |prefix|
    ensures i + k < |s| && s[i + k] == prefix[k]
  {
    assert s[i..][k] == prefix[k];
  }

  /** So the order of the alternatives does not change what matches. */
  lemma MatchAtCardSame(s: string, i: int)
    ensures MatchAtCard(s, i) == StartupDetails.MatchAt(s, i)
  {
    AlternativesExclusive(s, i);
  }

  function MatchesCard(s: string): (ms: seq<Option<string>>)
    ensures |ms| == |s| + 1 && forall i :: 0 <= i <= |s| ==> ms[i] == MatchAtCard(s, i)
  {
    seq(|s| + 1, i requires 0 <= i <= |s| => MatchAtCard(s, i))
  }

  /** The card's `extractYT`: the captured id, or "" when nothing matches. */
  function ExtractYTCard(url: string): string {
    StartupDetails.FirstFound(MatchesCard(url), 0).GetOr("")
  }

  /** Both `extractYT`s find the same id; the card writes "" where the
      details page has null. */
  lemma ExtractYTCardSame(url: string)
    ensures ExtractYTCard(url) == StartupDetails.ExtractYT(Some(url)).GetOr("")
    ensures url != "" && StartupDetails.ExtractYT(Some(url)).Some? ==>
      ExtractYTCard(url) == StartupDetails.ExtractYT(Some(url)).value
  {
    forall i | 0 <= i <= |url| ensures MatchesCard(url)[i] == StartupDetails.Matches(url)[i] {
      MatchAtCardSame(url, i);
    }
    assert MatchesCard(url) == StartupDetails.Matches(url);
    if url == "" {
      assert MatchesCard(url)[0] == MatchAtCard(url, 0) == None;
    }
  }

  /** A card id is empty or eleven id characters. */
  lemma ExtractYTCardShape(url: string)
    ensures ExtractYTCard(url) == "" || (|ExtractYTCard(url)| == 11 && forall k :: 0 <= k < 11 ==> StartupDetails.IdChar(ExtractYTCard(url)[k]))
  {
    ExtractYTCardSame(url);
  }

  datatype Thumbnail = Placeholder | Remote(uri: string)

  const ThumbPrefix: string := "https://img.youtube.com/vi/"
  const ThumbSuffix: string := "/hqdefault.jpg"

  /** The thumbnail: the placeholder image without a video, else the
      YouTube still of the extracted id (the id may be empty). */
  function VideoThumbnail(video: Option<string>): (t: Thumbnail)
    ensures !Truthy(video) <==> t == Placeholder
    ensures Truthy(video) ==>
      (t.Remote? && |t.uri| == |ThumbPrefix| + |ExtractYTCard(video.value)| + |ThumbSuffix|
       && ThumbPrefix <= t.uri && t.uri[|t.uri| - |ThumbSuffix|..] == ThumbSuffix
       && t.uri[|ThumbPrefix|..|t.uri| - |ThumbSuffix|] == ExtractYTCard(video.value))
  {
    if Truthy(video) then Remote(ThumbPrefix + ExtractYTCard(video.value) + ThumbSuffix) else Placeholder
  }

  // ---------------------------------------------------------------------
  // mediaNota and renderStars
  // ---------------------------------------------------------------------

  predicate AllNoted(avaliacoes: seq<Review>) {
    forall k :: 0 <= k < |avaliacoes| ==> avaliacoes[k].nota.Some?
  }

  /** `mediaNota`: 0 without ratings, else (sum / count) / 2; a rating
      without `nota` makes the sum NaN, which is None here. */
  function MediaNota(avaliacoes: seq<Review>): (m: Option<real>)
    ensures avaliacoes == [] ==> m == Some(0.0)
    ensures avaliacoes != [] && !AllNoted(avaliacoes) ==> m == None
    ensures avaliacoes != [] && AllNoted(avaliacoes) ==>
      m.Some? && m.value * 2.0 * |avaliacoes| as real == StartupDetails.SumNotas(avaliacoes) as real
  {
    if avaliacoes == [] then Some(0.0)
    else if !AllNoted(avaliacoes) then None
    else Some(StartupDetails.Media(avaliacoes) / 2.0)
  }

  /** When every rating has its note, the card's value is the details
      page's `media / 2`, so on the 0..10 scale it lies in 0..5. */
  lemma MediaNotaLikeDetails(avaliacoes: seq<Review>)
    requires AllNoted(avaliacoes)
    ensures MediaNota(avaliacoes) == Some(StartupDetails.Media(avaliacoes) / 2.0)
    ensures StartupDetails.NotesInScale(avaliacoes) ==> 0.0 <= MediaNota(avaliacoes).value <= 5.0
  {
    if StartupDetails.NotesInScale(avaliacoes) {
      StartupDetails.MediaInScale(avaliacoes);
    }
  }

  /** Past the full stars, `i - m < 1` holds only at floor(m) + 1 and only
      when m is not a whole number. */
  lemma HalfPosition(i: int, m: real)
    requires i > m.Floor
    ensures (i as real) - m < 1.0 <==> i == m.Floor + 1 && m.Floor as real != m
  {
  }

  /** `renderStars`: for i = 1..5 a full star while i <= floor(mediaNota),
      else a half star when i - mediaNota < 1, else an outline. With a NaN
      mean every comparison is false and all five are outlines. */
  method RenderStars(mediaNota: Option<real>) returns (stars: seq<Icon>)
    ensures |stars| == 5
    ensures forall k :: 0 <= k < 5 ==> (stars[k] == Full <==> mediaNota.Some? && k + 1 <= mediaNota.value.Floor)
    ensures forall k :: 0 <= k < 5 ==>
      (stars[k] == Half <==> mediaNota.Some? && k == mediaNota.value.Floor && mediaNota.value.Floor as real != mediaNota.value)
    ensures forall k, j :: 0 <= k < 5 && 0 <= j < 5 && stars[k] == Half && stars[j] == Half ==> k == j
  {
    stars := [];
    var i := 1;
    while i <= 5
      invariant 1 <= i <= 6 && |stars| == i - 1
      invariant forall k :: 0 <= k < |stars| ==> (stars[k] == Full <==> mediaNota.Some? && k + 1 <= mediaNota.value.Floor)
      invariant forall k :: 0 <= k < |stars| ==>
        (stars[k] == Half <==> mediaNota.Some? && k == mediaNota.value.Floor && mediaNota.value.Floor as real != mediaNota.value)
    {
      match mediaNota {
        case None =>
          stars := stars + [Outline];
        case Some(m) =>
          if i <= m.Floor {
            stars := stars + [Full];
          } else if (i as real) - m < 1.0 {
            HalfPosition(i, m);
            stars := stars + [Half];
          } else {
            HalfPosition(i, m);
            stars := stars + [Outline];
          }
      }
      i := i + 1;
    }
  }

  /** The card, with the ratings its load effect fetched. */
  class Card {
    var avaliacoes: seq<Review>
    const video: Option<string>

    constructor (video: Option<string>)
      ensures this.video == video && avaliacoes == []
    {
      this.video := video;
      avaliacoes := [];
    }

    /** What the card draws: the thumbnail, five stars for `mediaNota` and
        `totalComentarios`, the number of ratings. */
    method View() returns (thumbnail: Thumbnail, stars: seq<Icon>, totalComentarios: nat)
      ensures thumbnail == VideoThumbnail(video)
      ensures |stars| == 5
      ensures forall k :: 0 <= k < 5 ==>
        (stars[k] == Full <==> MediaNota(avaliacoes).Some? && k + 1 <= MediaNota(avaliacoes).value.Floor)
      ensures forall k :: 0 <= k < 5 ==>
        (stars[k] == Half <==> MediaNota(avaliacoes).Some? && k == MediaNota(avaliacoes).value.Floor
                               && MediaNota(avaliacoes).value.Floor as real != MediaNota(avaliacoes).value)
      ensures forall k, j :: 0 <= k < 5 && 0 <= j < 5 && stars[k] == Half && stars[j] == Half ==> k == j
      ensures totalComentarios == |avaliacoes|
    {
      thumbnail := VideoThumbnail(video);
      stars := RenderStars(MediaNota(avaliacoes));
      totalComentarios := |avaliacoes|;
    }
  }
}
