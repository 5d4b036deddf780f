/** The rating form under a startup: a rating, a comment, and the guarded
    send that posts them and hands the created rating to the page. */
module NewAvaliacaoForm {
  import opened Wrappers
  import opened Records

  const NoRatingMessage: string := "D\U{00EA} uma nota antes de enviar."
  const NoUserMessage: string := "Usu\U{00E1}rio n\U{00E3}o identificado."
  const SendFailedMessage: string := "N\U{00E3}o foi poss\U{00ED}vel enviar a avalia\U{00E7}\U{00E3}o."

  /** `AvaliacaoRequest`. */
  datatype ReviewRequest = ReviewRequest(nota: int, comentario: string, usuarioCPF: string, startupCNPJ: string)

  /** How a press of "send" ends: an alert before anything is sent, the
      rating handed to `onSuccess`, or the alert after a failed post. */
  datatype SendOutcome =
    | Refused(message: string)
    | Delivered(payload: ReviewRequest, created: Review)
    | SendFailed(payload: ReviewRequest, message: string)

  class ReviewForm {
    var rating: int
    var comentario: string
    var sending: bool
    const startupCNPJ: string

    constructor (startupCNPJ: string)
      ensures this.startupCNPJ == startupCNPJ
      ensures rating == 0 && comentario == "" && !sending
    {
      this.startupCNPJ := startupCNPJ;
      rating := 0;
      comentario := "";
      sending := false;
    }

    method SetRating(n: int)
      modifies this
      ensures rating == n && comentario == old(comentario) && sending == old(sending)
    {
      rating := n;
    }

    method SetComentario(text: string)
      modifies this
      ensures comentario == text && rating == old(rating) && sending == old(sending)
    {
      comentario := text;
    }

    /** `handleSend`, with the signed-in user's CPF, the outcome of
        `postAvaliacao` and that of the author lookup given. A zero rating
        or a missing CPF sends nothing and changes nothing; otherwise the
        payload is posted, a created rating is delivered with its author
        (none when the lookup failed) and the form is cleared, while a
        failed post keeps rating and comment. `sending` ends false. */
    method HandleSend(userCpf: Option<string>, post: Result<Review, ()>, author: Option<UserRecord>)
      returns (r: SendOutcome)
      modifies this
      ensures old(rating) == 0 ==>
        r == Refused(NoRatingMessage) && rating == old(rating) && comentario == old(comentario) && sending == old(sending)
      ensures old(rating) != 0 && !Truthy(userCpf) ==>
        r == Refused(NoUserMessage) && rating == old(rating) && comentario == old(comentario) && sending == old(sending)
      ensures old(rating) != 0 && Truthy(userCpf) && post.Success? ==>
        r == Delivered(ReviewRequest(old(rating), old(comentario), userCpf.value, startupCNPJ),
                       post.value.(usuario := author))
        && rating == 0 && comentario == "" && !sending
      ensures old(rating) != 0 && Truthy(userCpf) && post.Failure? ==>
        r == SendFailed(ReviewRequest(old(rating), old(comentario), userCpf.value, startupCNPJ), SendFailedMessage)
        && rating == old(rating) && comentario == old(comentario) && !sending
    {
      if rating == 0 {
        return Refused(NoRatingMessage);
      }
      if !Truthy(userCpf) {
        return Refused(NoUserMessage);
      }
      var payload := ReviewRequest(rating, comentario, userCpf.value, startupCNPJ);
      sending := true;
      match post {
        case Success(created) =>
          r := Delivered(payload, created.(usuario := author));
          rating := 0;
          comentario := "";
        case Failure(_) =>
          r := SendFailed(payload, SendFailedMessage);
      }
      sending := false;
    }
  }
}
