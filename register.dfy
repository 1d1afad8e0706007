/** src/services/auth/Registro.js: `RegisterService`, which always resolves to
    a `{msg, data}` object. */
module Register {

  import opened Js
  import opened Http
  import Login

  const Registered := "Usuario registrado correctamente"
  const EmailInUse := "El correo ya está en uso, por favor intenta con otro"
  const ServerProblem := "Hubo un problema con el servidor, por favor intenta de nuevo"

  /** The POST `RegisterService({nombre, correo, contraseña})` sends: exactly
      the three arguments, under their own names. */
  function RegisterRequest(e: Endpoints, nombre: Value, correo: Value, contrasena: Value): (r: Request)
    ensures r.verb == Post && r.url == e.register
    ensures r.body.Keys == {"nombre", "correo", "contraseña"}
    ensures r.body["nombre"] == nombre && r.body["correo"] == correo && r.body["contraseña"] == contrasena
  {
    Request(Post, e.register, map["nombre" := nombre, "correo" := correo, "contraseña" := contrasena])
  }

  /** `RegisterService`. The success reply passes `response.data.data` on
      as it is; a `null` or `undefined` body makes that read throw inside the
      try block, and the catch block sees no `error.response`. */
  function RegisterService(o: Outcome): (r: Reply)
    ensures r.msg in {Registered, EmailInUse, ServerProblem}
    ensures r.msg == Registered <==> o.Resolved? && DataMember(o.body).Some?
    ensures r.msg == Registered ==> r.data == DataMember(o.body).value
    ensures r.msg == EmailInUse <==> RejectedWith(o, 409)
    ensures r.msg != Registered ==> r.data == Null
  {
    match o
    case Resolved(_, body) =>
      (match DataMember(body)
      case None => Reply(ServerProblem, Null)
      case Some(data) => Reply(Registered, data))
    case Rejected(status) =>
      if status == 409 then Reply(EmailInUse, Null)
      else Reply(ServerProblem, Null)
    case NoResponse => Reply(ServerProblem, Null)
  }

  /** With no `|| null`, a successful registration whose body lacks a `data`
      member yields `data: undefined`, where a login would give `null`. */
  lemma RegisterDataNotCoalesced(body: map<string, Value>)
    requires "data" !in body
    ensures RegisterService(Resolved(201, Obj(body))) == Reply(Registered, Undefined)
    ensures Login.LoginService(Resolved(200, Obj(body))).data == Null
  {
  }
}
