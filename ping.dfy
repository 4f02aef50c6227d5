/** The Ping record (objects/ping.py). */
module PingObject {
  import opened Errors
  import opened Json

  /** A frozen liveness status; `kind` is the field the server calls `type`. */
  datatype Ping = Ping(status: Json, version: Json, kind: Json) {
    /** The `ok` property: the status is exactly the string "ok". */
    predicate IsOk()
    {
      status == JStr("ok")
    }
  }

  /** What SubsonicClient.ping returns when the server cannot be reached. */
  const Degraded := Ping(JStr("failed"), JStr("unknown"), JStr("unknown"))

  /** `Ping(**response)`: the three declared fields are required. */
  function PingOf(j: Json): (r: Result<Ping>)
    ensures r.Ok? <==> j.JObj? && "status" in j.fields && "version" in j.fields && "type" in j.fields
    ensures r.Ok? ==> r.value == Ping(j.fields["status"], j.fields["version"], j.fields["type"])
    ensures r.Err? ==> r.error == Uncaught("TypeError")
  {
    match j
    case JObj(m) =>
      if "status" in m && "version" in m && "type" in m then Ok(Ping(m["status"], m["version"], m["type"]))
      else Err(Uncaught("TypeError"))
    case _ => Err(Uncaught("TypeError"))
  }

  /** `ok` is decided by the status alone: version and type play no part. */
  lemma OkIgnoresVersionAndType(p: Ping, version: Json, kind: Json)
    ensures Ping(p.status, version, kind).IsOk() == p.IsOk()
  {
  }

  /** The comparison is exact: only the string "ok" itself is ok, so "OK", " ok" or a non-string status is not. */
  lemma OkIsCaseSensitive(status: Json, version: Json, kind: Json)
    ensures Ping(status, version, kind).IsOk() <==> status.JStr? && status.s == "ok"
    ensures status.JStr? && status.s != "ok" ==> !Ping(status, version, kind).IsOk()
  {
  }

  /** A ping as the response fields it was built from. */
  function PingFields(p: Ping): map<string, Json>
  {
    map["status" := p.status, "version" := p.version, "type" := p.kind]
  }

  /** Building a ping from the fields of a ping gives that ping back. */
  lemma PingRoundTrip(p: Ping)
    ensures PingOf(JObj(PingFields(p))) == Ok(p)
  {
  }

  /** The degraded status is not ok. */
  lemma DegradedIsNotOk()
    ensures !Degraded.IsOk()
  {
  }
}
