/** src/services/recets/getRecets.js: `getListRecetsService`, the only service
    that branches on the status of a fulfilled response and the only one that
    throws. */
module Recipes {

  import opened Js
  import opened Http

  const Obtained := "Recetas obtenidas correctamente"
  /** The message keeps the leading space it has in the source. */
  const NotFound := " no se pudo obtener las recetas para este usuario"
  const UnexpectedStatus := "Error inesperado al obtener las recetas"
  const FetchProblem := "Hubo un problema al intentar obtener los datos"

  /** How the promise settles: a reply, or a rejection with an `Error`. */
  datatype Settled = Returns(reply: Reply) | Throws(message: string)

  /** `${ENDPOINTS.RECIPES}/${id_user}`, with `id_user` converted as a
      template literal converts it. */
  function RecipesUrl(e: Endpoints, idUser: Value): (url: string)
    ensures |url| == |e.recipes| + 1 + |TemplateString(idUser)|
    ensures url[..|e.recipes|] == e.recipes && url[|e.recipes|] == '/'
    ensures url[|e.recipes| + 1..] == TemplateString(idUser)
  {
    e.recipes + "/" + TemplateString(idUser)
  }

  /** The GET `getListRecetsService({id_user})` sends. */
  function RecipesRequest(e: Endpoints, idUser: Value): (r: Request)
    ensures r.verb == Get && r.url == RecipesUrl(e, idUser) && r.body == map[]
  {
    Request(Get, RecipesUrl(e, idUser), map[])
  }

  /** The URL determines a string or non-negative numeric id: the part after
      the endpoint and "/" gives it back. A missing id is not rejected but
      becomes the text "undefined", indistinguishable from the string id
      "undefined". */
  lemma RecipesUrlRecoversId(e: Endpoints, a: string, b: string, n: SafeInt)
    requires n >= 0
    ensures RecipesUrl(e, Str(a)) == RecipesUrl(e, Str(b)) ==> a == b
    ensures DecimalValue(RecipesUrl(e, Num(n))[|e.recipes| + 1..]) == n
    ensures RecipesUrl(e, Undefined) == RecipesUrl(e, Str("undefined"))
  {
    if RecipesUrl(e, Str(a)) == RecipesUrl(e, Str(b)) {
      assert a == RecipesUrl(e, Str(a))[|e.recipes| + 1..];
    }
  }

  /** `getListRecetsService`. Every rejection of the request, and the
      TypeError of reading `response.data.data` from an empty body, reach the
      catch block, which logs and throws a fresh `Error`. */
  function GetListRecets(o: Outcome): (r: Settled)
    ensures r.Throws? ==> r.message == FetchProblem
    ensures r.Throws? <==> !o.Resolved? || (o.status == 200 && DataMember(o.body).None?)
    ensures r.Returns? && o.status == 200 ==> r.reply == Reply(Obtained, DataMember(o.body).value)
    ensures r.Returns? && o.status == 404 ==> r.reply == Reply(NotFound, Null)
    ensures r.Returns? && o.status != 200 && o.status != 404 ==> r.reply == Reply(UnexpectedStatus, Null)
  {
    match o
    case Resolved(status, body) =>
      if status == 200 then
        (match DataMember(body)
        case None => Throws(FetchProblem)
        case Some(data) => Returns(Reply(Obtained, data)))
      else if status == 404 then Returns(Reply(NotFound, Null))
      else Returns(Reply(UnexpectedStatus, Null))
    case Rejected(_) => Throws(FetchProblem)
    case NoResponse => Throws(FetchProblem)
  }

  /** A returned reply carries data only for status 200, and its message
      names the status class it came from. */
  lemma RecipesReplyClassifies(o: Outcome)
    requires GetListRecets(o).Returns?
    ensures o.Resolved?
    ensures GetListRecets(o).reply.msg == Obtained <==> o.status == 200
    ensures GetListRecets(o).reply.msg == NotFound <==> o.status == 404
    ensures o.status != 200 ==> GetListRecets(o).reply.data == Null
  {
  }
}
