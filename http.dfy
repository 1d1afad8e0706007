/** The shapes shared by the service modules: what an awaited axios call did,
    the request it was given, and the `{msg, data}` object the services return. */
module Http {

  import opened Js

  /** The outcome of `await axios.get/post(...)`, taken as an input.
      `Resolved` is a fulfilled promise with the response's status and decoded
      body (`response.data`); `Rejected` is a rejection whose `error.response`
      is present; `NoResponse` is any rejection without `error.response`. */
  datatype Outcome =
    | Resolved(status: int, body: Value)
    | Rejected(status: int)
    | NoResponse

  datatype Verb = Get | Post

  /** The call a service makes: verb, URL and, for a POST, the body object. */
  datatype Request = Request(verb: Verb, url: string, body: map<string, Value>)

  /** The endpoint URLs of the configuration, which this model takes as given. */
  datatype Endpoints = Endpoints(login: string, register: string, payment: string, cancel: string, recipes: string)

  /** `{ msg, data }` */
  datatype Reply = Reply(msg: string, data: Value)

  /** A reply as the plain JavaScript object a caller receives. */
  function ReplyObject(r: Reply): (v: Value)
    ensures v.Obj? && v.fields.Keys == {"msg", "data"}
    ensures v.fields["msg"] == Str(r.msg) && v.fields["data"] == r.data
  {
    Obj(map["msg" := Str(r.msg), "data" := r.data])
  }

  /** `error.response && error.response.status === code` */
  predicate RejectedWith(o: Outcome, code: int)
  {
    o.Rejected? && o.status == code
  }
}
