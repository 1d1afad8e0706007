/** src/services/auth/Login.js: `loginService`, which always resolves to a
    `{msg, data}` object. */
module Login {

  import opened Js
  import opened Http

  const LoggedIn := "Inicio de sesión exitoso"
  const BadCredentials := "Error al iniciar sesión, verifica tus credencialess"
  const Unexpected := "Error inesperado, por favor intenta de nuevo"

  /** The POST `loginService({correo, contraseña})` sends. */
  function LoginRequest(e: Endpoints, correo: Value, contrasena: Value): (r: Request)
    ensures r.verb == Post && r.url == e.login
    ensures r.body.Keys == {"correo", "contraseña"}
    ensures r.body["correo"] == correo && r.body["contraseña"] == contrasena
  {
    Request(Post, e.login, map["correo" := correo, "contraseña" := contrasena])
  }

  /** `loginService`. On success `response.data.data` is read inside the try
      block; when the body is `null` or `undefined` that read throws a
      TypeError, which the catch block receives without `error.response`. */
  function LoginService(o: Outcome): (r: Reply)
    ensures r.msg in {LoggedIn, BadCredentials, Unexpected}
    ensures r.msg == LoggedIn <==> o.Resolved? && DataMember(o.body).Some?
    ensures r.msg == BadCredentials <==> RejectedWith(o, 401) || RejectedWith(o, 404)
    ensures r.msg == LoggedIn ==> r.data == Or(DataMember(o.body).value, Null)
    ensures r.msg != LoggedIn ==> r.data == Null
  {
    match o
    case Resolved(_, body) =>
      (match DataMember(body)
      case None => Reply(Unexpected, Null)
      case Some(data) => Reply(LoggedIn, Or(data, Null)))
    case Rejected(status) =>
      if status == 401 || status == 404 then Reply(BadCredentials, Null)
      else Reply(Unexpected, Null)
    case NoResponse => Reply(Unexpected, Null)
  }

  /** The `|| null` means a caller never sees a falsy `data` other than
      `null`: the data is `null` or truthy, and it is truthy only after a
      successful login whose body carried a truthy `data` member. */
  lemma LoginDataNullOrTruthy(o: Outcome)
    ensures LoginService(o).data == Null || Truthy(LoginService(o).data)
    ensures Truthy(LoginService(o).data) <==>
      o.Resolved? && o.body.Obj? && "data" in o.body.fields && Truthy(o.body.fields["data"])
    ensures Truthy(LoginService(o).data) ==> LoginService(o).data == o.body.fields["data"]
  {
  }

  /** Every failure other than 401 and 404, and a success with an empty body,
      gives the same "unexpected" reply. */
  lemma LoginUnexpected(o: Outcome)
    ensures LoginService(o) == Reply(Unexpected, Null) <==>
      (o.Resolved? && (o.body.Undefined? || o.body.Null?))
      || (o.Rejected? && o.status != 401 && o.status != 404)
      || o.NoResponse?
  {
  }
}
