/** The service directory: the record a provider registers, the check on the
    registration form, and the envelopes the two directory handlers reply with. */
module Directory {
  import opened Common

  /** The service object stored as the detail blob of a registration. */
  datatype ServiceRecord = ServiceRecord(
    id: string,
    name: string,
    serviceType: string,
    location: string,
    cost: string,
    description: string,
    availability: int)

  /** The five registration parameters are all present and non-empty. */
  predicate AllPresent(name: Field, serviceType: Field, location: Field, cost: Field, description: Field): (ok: bool)
    ensures ok <==> (None !in [name, serviceType, location, cost, description]
                     && Some("") !in [name, serviceType, location, cost, description])
  {
    Truthy(name) && Truthy(serviceType) && Truthy(location) && Truthy(cost) && Truthy(description)
  }

  /** The record registered under `id`: the five parameters, not yet available. */
  function NewRecord(id: string, name: Field, serviceType: Field, location: Field, cost: Field, description: Field): (rec: ServiceRecord)
    requires AllPresent(name, serviceType, location, cost, description)
    ensures rec.id == id && rec.availability == 0
    ensures Some(rec.name) == name && Some(rec.serviceType) == serviceType && Some(rec.location) == location
    ensures Some(rec.cost) == cost && Some(rec.description) == description
  {
    ServiceRecord(id, name.value, serviceType.value, location.value, cost.value, description.value, 0)
  }

  /** The reply to a registration. Only a registration whose two writes both
      went through carries the service id. */
  datatype PostReply =
    | Posted(message: string, serviceId: string)
    | Failure(error: string)
    | MissingParameters
  {
    function Status(): (s: int)
      ensures s == 0 <==> Posted?
      ensures s == 0 || s == 1
    {
      if Posted? then 0 else 1
    }

    function Message(): (m: string)
      ensures Posted? ==> m == message
      ensures !Posted? ==> (m == "Failure" <==> Failure?)
      ensures Failure? ==> m == "Failure"
      ensures MissingParameters? ==> m == "Did not receive all parameters"
    {
      match this
      case Posted(m, _) => m
      case Failure(_) => "Failure"
      case MissingParameters => "Did not receive all parameters"
    }
  }

  /** The message of a registration whose two writes were acknowledged with
      `ack1` and `ack2`: both acknowledgements can be read back from it. */
  function SuccessMessage(ack1: string, ack2: string): (m: string)
    ensures |m| == 12 + |ack1| + |ack2|
    ensures m[..9] == "Success. " && m[12 + |ack1|..] == ack2
    ensures m[9..9 + |ack1|] == ack1 && m[9 + |ack1|..12 + |ack1|] == " . "
  {
    "Success. " + ack1 + " . " + ack2
  }

  /** A provider payload as decoded from the remote store's answer: its
      "status" member (None when it has none) and the rest of it. */
  datatype Payload = Payload(status: Option<int>, members: map<string, string>)

  /** The reply to a provider lookup. `data` is None when the reply has no data member. */
  datatype LookupReply = LookupReply(status: int, data: Option<Payload>, error: string)

  /** Shapes the remote store's answer to a lookup into the reply envelope:
      found exactly when a payload came back with status 0; any payload is
      passed back as data; the error names which way the lookup failed. */
  function ShapeLookup(provider: Option<Payload>): (r: LookupReply)
    ensures r.status == 0 <==> provider.Some? && provider.value.status == Some(0)
    ensures r.status == 0 || r.status == 1
    ensures r.data == provider
    ensures r.error == "" <==> r.status == 0
    ensures provider.None? ==> r.error == "No data retrieved from VSync"
    ensures provider.Some? && r.status != 0 ==> r.error == "No service provider found"
  {
    match provider
    case Some(p) =>
      if p.status == Some(0) then LookupReply(0, provider, "")
      else LookupReply(1, provider, "No service provider found")
    case None => LookupReply(1, None, "No data retrieved from VSync")
  }
}
