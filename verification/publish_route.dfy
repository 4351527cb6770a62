/**
 * The `POST` handler of the publish route: it checks that the three parts
 * of a portfolio are present and that the name is not blank, hands the
 * parts to the storage service, and answers with the short code and the
 * public path. The storage service is a parameter: any function from the
 * parts to a code or to an error.
 */
module PublishRoute {
  import opened Wrappers
  import opened JsText

  /** A value of the parsed request body. */
  datatype JsonValue =
    | JNull
    | JBool(b: bool)
    | JNumber(n: real)
    | JString(s: string)
    | JArray(items: seq<JsonValue>)
    | JObject(members: map<string, JsonValue>)

  /** `v.key`: a member of an object; any other value has none of the keys read here. */
  function Get(v: JsonValue, key: string): Option<JsonValue> {
    if v.JObject? && key in v.members then Some(v.members[key]) else None
  }

  /** JavaScript truthiness; `None` is `undefined`. */
  predicate Truthy(v: Option<JsonValue>) {
    match v
    case None => false
    case Some(JNull) => false
    case Some(JBool(b)) => b
    case Some(JNumber(n)) => n != 0.0
    case Some(JString(s)) => |s| > 0
    case Some(JArray(_)) => true
    case Some(JObject(_)) => true
  }

  /** What the handler passes to the storage service. */
  datatype PublishRequest = PublishRequest(personalInfo: JsonValue, professional: JsonValue, aiPortfolio: JsonValue)

  datatype Response =
    | Published(code: string, url: string)
    | Rejected(status: nat, error: string)

  /** The response, and the request made to the storage service if one was made. */
  datatype Outcome = Outcome(response: Response, stored: Option<PublishRequest>)

  const MissingFields: string := "Missing required fields"
  const NameRequired: string := "Name is required"
  const PublishFailed: string := "Failed to publish portfolio"

  /** All three parts are present (truthy). */
  predicate HasParts(body: JsonValue) {
    Truthy(Get(body, "personalInfo")) && Truthy(Get(body, "professional")) && Truthy(Get(body, "aiPortfolio"))
  }

  /** The name, when it is a string. */
  function NameText(body: JsonValue): Option<string> {
    var pi := Get(body, "personalInfo");
    if pi.Some? then
      var n := Get(pi.value, "name");
      if n.Some? && n.value.JString? then Some(n.value.s) else None
    else None
  }

  /** The name is absent, falsy, or a string that is blank after trimming. */
  predicate NameMissing(body: JsonValue) {
    var pi := Get(body, "personalInfo");
    pi.Some? && (!Truthy(Get(pi.value, "name")) || (NameText(body).Some? && IsBlank(NameText(body).value)))
  }

  /**
   * `POST`: `body` is what `request.json()` produced, or the message it
   * threw; `publish` is the storage service, giving the new code or failing.
   */
  function Post(body: Result<JsonValue, string>, publish: PublishRequest -> Result<string, string>): (out: Outcome)
    // a body that cannot be read or destructured fails before any check
    ensures (body.Failure? || body.value.JNull?) ==> out == Outcome(Rejected(500, PublishFailed), None)
    // the parts are checked first
    ensures body.Success? && !body.value.JNull? && !HasParts(body.value) ==>
      out == Outcome(Rejected(400, MissingFields), None)
    // then the name
    ensures body.Success? && HasParts(body.value) && NameMissing(body.value) ==>
      out == Outcome(Rejected(400, NameRequired), None)
    // a truthy name that is not a string has no `trim`: the call throws
    ensures body.Success? && HasParts(body.value) && !NameMissing(body.value) && NameText(body.value).None? ==>
      out == Outcome(Rejected(500, PublishFailed), None)
    // nothing is stored unless both checks pass, and then exactly the three parts are
    ensures out.stored.Some? <==>
      body.Success? && HasParts(body.value) && !NameMissing(body.value) && NameText(body.value).Some?
    ensures out.stored.Some? ==> out.stored.value == PublishRequest(
      Get(body.value, "personalInfo").value, Get(body.value, "professional").value, Get(body.value, "aiPortfolio").value)
    // the reply to a stored portfolio: its code and public path, or the failure
    ensures out.stored.Some? && publish(out.stored.value).Success? ==>
      out.response == Published(publish(out.stored.value).value, "/p/" + publish(out.stored.value).value)
    ensures out.stored.Some? && publish(out.stored.value).Failure? ==> out.response == Rejected(500, PublishFailed)
    ensures out.response.Rejected? ==> out.response.status == 400 || out.response.status == 500
  {
    match body
    case Failure(_) => Outcome(Rejected(500, PublishFailed), None)
    case Success(b) =>
      if b.JNull? then Outcome(Rejected(500, PublishFailed), None)
      else
        var personalInfo := Get(b, "personalInfo");
        var professional := Get(b, "professional");
        var aiPortfolio := Get(b, "aiPortfolio");
        if !Truthy(personalInfo) || !Truthy(professional) || !Truthy(aiPortfolio) then
          Outcome(Rejected(400, MissingFields), None)
        else
          var name := Get(personalInfo.value, "name");
          if !Truthy(name) then Outcome(Rejected(400, NameRequired), None)
          else if !name.value.JString? then Outcome(Rejected(500, PublishFailed), None)
          else if IsBlank(name.value.s) then Outcome(Rejected(400, NameRequired), None)
          else
            var request := PublishRequest(personalInfo.value, professional.value, aiPortfolio.value);
            match publish(request)
            case Success(code) => Outcome(Published(code, "/p/" + code), Some(request))
            case Failure(_) => Outcome(Rejected(500, PublishFailed), Some(request))
  }

  /** The public path always names the code it was made from. */
  lemma PublicPathNamesCode(body: Result<JsonValue, string>, publish: PublishRequest -> Result<string, string>)
    ensures Post(body, publish).response.Published? ==>
      var r := Post(body, publish).response;
      |r.url| == 3 + |r.code| && r.url[..3] == "/p/" && r.url[3..] == r.code
  {
  }
}
