/** One row of the search results: the startup's name with its stars and
    comment count, drawn once its ratings have been fetched. */
module SearchStartupItem {
  import opened Wrappers
  import opened Records
  import opened StarsDisplay
  import StartupCard

  /** The stars and the comment count a loaded row shows. */
  datatype RowView = RowView(stars: seq<Icon>, totalComentarios: nat)

  class Item {
    var avaliacoes: seq<Review>
    var loading: bool
    const cnpj: string

    constructor (cnpj: string)
      ensures this.cnpj == cnpj && avaliacoes == [] && loading
    {
      this.cnpj := cnpj;
      avaliacoes := [];
      loading := true;
    }

    /** The load effect, given the outcome of fetching the startup's
        details: a details record whose `avaliacoes` is missing counts as
        no ratings, a failed fetch keeps the list, and the spinner stops
        either way. */
    method Load(detalhe: Result<Option<seq<Review>>, ()>)
      modifies this
      ensures !loading
      ensures detalhe.Success? && detalhe.value.None? ==> avaliacoes == []
      ensures detalhe.Success? && detalhe.value.Some? ==> avaliacoes == detalhe.value.value
      ensures detalhe.Failure? ==> avaliacoes == old(avaliacoes)
    {
      if detalhe.Success? {
        avaliacoes := detalhe.value.GetOr([]);
      }
      loading := false;
    }

    /** What the row draws below the name: a spinner (None) while loading,
        else five stars for the halved mean rating and the number of
        ratings. */
    method View() returns (shown: Option<RowView>)
      ensures shown.None? <==> loading
      ensures shown.Some? ==> shown.value.totalComentarios == |avaliacoes| && |shown.value.stars| == 5
      ensures shown.Some? ==> forall k :: 0 <= k < 5 ==>
        (shown.value.stars[k] == Full <==> StartupCard.MediaNota(avaliacoes).Some? && k + 1 <= StartupCard.MediaNota(avaliacoes).value.Floor)
      ensures shown.Some? ==> forall k :: 0 <= k < 5 ==>
        (shown.value.stars[k] == Half <==>
          (StartupCard.MediaNota(avaliacoes).Some?
           && k == StartupCard.MediaNota(avaliacoes).value.Floor
           && StartupCard.MediaNota(avaliacoes).value.Floor as real != StartupCard.MediaNota(avaliacoes).value))
    {
      if loading {
        shown := None;
      } else {
        var stars := StartupCard.RenderStars(StartupCard.MediaNota(avaliacoes));
        shown := Some(RowView(stars, |avaliacoes|));
      }
    }
  }
}
