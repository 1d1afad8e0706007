/** src/services/payment/payment.js: starting a payment and cancelling a
    subscription. Both catch blocks handle only the statuses 400 and 500 and
    otherwise fall off the end, so the promise resolves to `undefined`. */
module Payment {

  import opened Js
  import opened Http

  const MissingUserId := "Asegurate de mandar el id de usuario"
  const MissingIds := "Asegurate de mandar el id de usuario y el id de la suscripcion"
  const ServerProblem := "Hubo un problema con el servidor, por favor intenta de nuevo"
  const Cancelled := "La suscripcion ha sido cancelada con exito"

  /** The POST `adquirePayment({id_user})` sends; `id_user` is not checked. */
  function PaymentRequest(e: Endpoints, idUser: Value): (r: Request)
    ensures r.verb == Post && r.url == e.payment
    ensures r.body.Keys == {"id_user"} && r.body["id_user"] == idUser
  {
    Request(Post, e.payment, map["id_user" := idUser])
  }

  /** The value `adquirePayment` resolves to. */
  function AdquirePayment(o: Outcome): (r: Value)
    ensures o.Resolved? ==> r == o.body
    ensures RejectedWith(o, 400) ==> r == ReplyObject(Reply(MissingUserId, Null))
    ensures RejectedWith(o, 500) ==> r == ReplyObject(Reply(ServerProblem, Null))
    ensures !o.Resolved? && !RejectedWith(o, 400) && !RejectedWith(o, 500) ==> r == Undefined
  {
    match o
    case Resolved(_, body) => body
    case Rejected(status) =>
      if status == 400 then ReplyObject(Reply(MissingUserId, Null))
      else if status == 500 then ReplyObject(Reply(ServerProblem, Null))
      else Undefined
    case NoResponse => Undefined
  }

  /** A caller receives `undefined` exactly when the call failed with neither
      400 nor 500, or succeeded with an empty body; the two cannot be told
      apart. A `{msg, data}` reply only ever comes from a failure. */
  lemma AdquirePaymentUndefined(o: Outcome)
    ensures AdquirePayment(o) == Undefined <==>
      (o.Resolved? && o.body == Undefined) || (!o.Resolved? && !RejectedWith(o, 400) && !RejectedWith(o, 500))
    ensures AdquirePayment(NoResponse) == AdquirePayment(Resolved(200, Undefined))
    ensures !o.Resolved? && AdquirePayment(o) != Undefined ==>
      AdquirePayment(o).Obj? && AdquirePayment(o).fields["data"] == Null
  {
  }

  /** The POST `cancelSuscription({id_user, id_suscription})` sends: the
      argument `id_suscription` travels under the key `id_suscripcion`. */
  function CancelRequest(e: Endpoints, idUser: Value, idSuscription: Value): (r: Request)
    ensures r.verb == Post && r.url == e.cancel
    ensures r.body.Keys == {"id_user", "id_suscripcion"}
    ensures r.body["id_user"] == idUser && r.body["id_suscripcion"] == idSuscription
  {
    Request(Post, e.cancel, map["id_user" := idUser, "id_suscripcion" := idSuscription])
  }

  /** The reply `cancelSuscription` resolves to; `None` is `undefined`. */
  function CancelSuscription(o: Outcome): (r: Option<Reply>)
    ensures o.Resolved? ==> r == Some(Reply(Cancelled, o.body))
    ensures RejectedWith(o, 400) ==> r == Some(Reply(MissingIds, Null))
    ensures RejectedWith(o, 500) ==> r == Some(Reply(ServerProblem, Null))
    ensures r.None? <==> !o.Resolved? && !RejectedWith(o, 400) && !RejectedWith(o, 500)
  {
    match o
    case Resolved(_, body) => Some(Reply(Cancelled, body))
    case Rejected(status) =>
      if status == 400 then Some(Reply(MissingIds, Null))
      else if status == 500 then Some(Reply(ServerProblem, Null))
      else None
    case NoResponse => None
  }

  /** Unlike `adquirePayment`, a success of `cancelSuscription` is always an
      object, so its message alone tells success from failure. */
  lemma CancelMessageClassifies(o: Outcome)
    requires CancelSuscription(o).Some?
    ensures CancelSuscription(o).value.msg == Cancelled <==> o.Resolved?
    ensures CancelSuscription(o).value.msg != Cancelled ==> CancelSuscription(o).value.data == Null
  {
  }
}
