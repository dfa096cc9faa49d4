/** The response envelope and the configuration values derived from the
    environment (helpers/util.ts). */
module Util {
  import opened Wrappers
  import opened JsText

  /** The JSON body `responseObj` writes; `None` fields are left out of it. */
  datatype Envelope<T> = Envelope(status: int, success: bool, data: Option<T>, message: Option<string>)

  /** A status set on the response together with the body sent. */
  datatype Reply<T> = Reply(httpStatus: int, body: Envelope<T>)

  /** `responseObj(res, status, data, message)`. A `data` of null or undefined
      is `None`; so is an omitted `message`. */
  function ResponseObj<T>(status: int, data: Option<T>, message: Option<string>): (r: Reply<T>)
    ensures r.httpStatus == status && r.body.status == r.httpStatus
    ensures r.body.success <==> 200 <= status < 300
    ensures r.body.data == data && r.body.message == message
  {
    Reply(status, Envelope(status, 200 <= status && status < 300, data, message))
  }

  /** The keys that the serialised envelope carries, in order. */
  function EnvelopeKeys<T>(e: Envelope<T>): seq<string> {
    ["status", "success"]
    + (if e.data.Some? then ["data"] else [])
    + (if e.message.Some? then ["message"] else [])
  }

  /** `data` appears in the response body exactly when a value was given, and
      the body never claims success for a status outside 2xx. */
  lemma ResponseObjShape<T>(status: int, data: Option<T>, message: Option<string>)
    ensures var r := ResponseObj(status, data, message);
            ("data" in EnvelopeKeys(r.body) <==> data.Some?)
            && ("message" in EnvelopeKeys(r.body) <==> message.Some?)
            && (r.body.success ==> !(status < 200 || 300 <= status))
  {
    var r := ResponseObj(status, data, message);
    var keys := EnvelopeKeys(r.body);
    if data.None? {
      assert keys[0] != "data" && keys[1] != "data";
      assert message.Some? ==> keys[2] != "data";
      assert "data" !in keys;
    } else {
      assert keys[2] == "data";
    }
    if message.None? {
      assert keys[0] != "message" && keys[1] != "message";
      assert data.Some? ==> keys[2] != "message";
      assert "message" !in keys;
    } else {
      assert keys[|keys| - 1] == "message";
    }
  }

  // ---------------------------------------------------------------------------
  // Configuration (an unset variable is `None`)

  /** `APP_NAME ?? 'NEBULA_APP'`: only an unset variable takes the default. */
  function AppName(appNameVar: Option<string>): (r: string)
    ensures appNameVar.Some? ==> r == appNameVar.value
    ensures appNameVar.None? ==> r == "NEBULA_APP"
  {
    appNameVar.GetOr("NEBULA_APP")
  }

  /** `NODE_ENV || 'development'`: an unset or empty variable takes the default. */
  function Env(nodeEnvVar: Option<string>): (r: string)
    ensures r != ""
    ensures Truthy(nodeEnvVar) ==> r == nodeEnvVar.value
    ensures !Truthy(nodeEnvVar) ==> r == "development"
  {
    if Truthy(nodeEnvVar) then nodeEnvVar.value else "development"
  }

  /** `ELASTIC_URL ? ELASTIC_URL : 'http://localhost:9200'`. */
  function ElasticUrl(urlVar: Option<string>): (r: string)
    ensures r != ""
    ensures Truthy(urlVar) ==> r == urlVar.value
    ensures !Truthy(urlVar) ==> r == "http://localhost:9200"
  {
    if Truthy(urlVar) then urlVar.value else "http://localhost:9200"
  }

  /** `ELASTIC_ADMIN ?? 'elastic'`. */
  function ElasticAdmin(adminVar: Option<string>): (r: string)
    ensures adminVar.Some? ==> r == adminVar.value
    ensures adminVar.None? ==> r == "elastic"
  {
    adminVar.GetOr("elastic")
  }

  /** `ELASTIC_PASS ?? 'changeme'`. */
  function ElasticPass(passVar: Option<string>): (r: string)
    ensures passVar.Some? ==> r == passVar.value
    ensures passVar.None? ==> r == "changeme"
  {
    passVar.GetOr("changeme")
  }

  /** `(ELASTIC_ACTIVE || '').toLowerCase() === 'true'`. */
  function ElasticActive(activeVar: Option<string>): (active: bool)
    ensures active ==> activeVar.Some? && |activeVar.value| == 4
  {
    ToLower(if Truthy(activeVar) then activeVar.value else "") == "true"
  }

  /** Elastic shipping is on exactly for "true" spelt in any mix of cases. */
  lemma ElasticActiveSpellings(activeVar: Option<string>)
    ensures ElasticActive(activeVar) <==>
      activeVar.Some? && |activeVar.value| == 4
      && (activeVar.value[0] == 't' || activeVar.value[0] == 'T')
      && (activeVar.value[1] == 'r' || activeVar.value[1] == 'R')
      && (activeVar.value[2] == 'u' || activeVar.value[2] == 'U')
      && (activeVar.value[3] == 'e' || activeVar.value[3] == 'E')
  {
    if activeVar.Some? && |activeVar.value| == 4 {
      var l := ToLower(activeVar.value);
      assert l == "true" <==> l[0] == 't' && l[1] == 'r' && l[2] == 'u' && l[3] == 'e';
    }
  }
}
