/** The RPC proxy to the remote key-value store. The store itself is remote:
    it is modelled as two abstract maps (the generic DHT entries and what
    putService stored), and every call made through the proxy is logged in
    order. Whether a call raises, and what the remote side answers where
    its answer is not a plain read of those maps, is chosen by the caller. */
module Remote {
  import opened Common
  import opened Directory

  /** What putService stores under a key: a type index entry naming a
      service id, or the detail blob of a service. */
  datatype Stored = ServiceId(id: string) | Detail(record: ServiceRecord)

  /** One call made through the proxy, with its arguments. */
  datatype Call =
    | PutDhtCall(key: string, value: string)
    | GetDhtCall(key: string)
    | PutServiceCall(key: string, stored: Stored)
    | GetServiceProviderCall(serviceType: Field, location: Field)

  class Proxy {
    var dht: map<string, string>
    var directory: map<string, Stored>
    var log: seq<Call>

    constructor (dht: map<string, string>, directory: map<string, Stored>)
      ensures this.dht == dht && this.directory == directory && log == []
    {
      this.dht := dht;
      this.directory := directory;
      log := [];
    }

    /** putDHT(key, value); `raises` is the error the call raises, if any.
        A raised call leaves the store as it was. */
    method PutDHT(key: string, value: string, raises: Option<string>) returns (r: Outcome<()>)
      modifies this
      ensures log == old(log) + [PutDhtCall(key, value)]
      ensures directory == old(directory)
      ensures raises.None? ==> r == Returned(()) && dht == old(dht)[key := value]
      ensures raises.Some? ==> r == Raised(raises.value) && dht == old(dht)
    {
      log := log + [PutDhtCall(key, value)];
      if raises.None? {
        dht := dht[key := value];
        r := Returned(());
      } else {
        r := Raised(raises.value);
      }
    }

    /** getDHT(key): the stored value, None for a missing key, or the error raised. */
    method GetDHT(key: string, raises: Option<string>) returns (r: Outcome<Option<string>>)
      modifies this
      ensures log == old(log) + [GetDhtCall(key)]
      ensures dht == old(dht) && directory == old(directory)
      ensures raises.Some? ==> r == Raised(raises.value)
      ensures raises.None? && key in dht ==> r == Returned(Some(dht[key]))
      ensures raises.None? && key !in dht ==> r == Returned(None)
    {
      log := log + [GetDhtCall(key)];
      if raises.Some? {
        r := Raised(raises.value);
      } else if key in dht {
        r := Returned(Some(dht[key]));
      } else {
        r := Returned(None);
      }
    }

    /** putService(key, value); `answer` is the acknowledgement the remote
        side sends back, or the error the call raises. */
    method PutService(key: string, stored: Stored, answer: Outcome<string>) returns (r: Outcome<string>)
      modifies this
      ensures log == old(log) + [PutServiceCall(key, stored)]
      ensures r == answer && dht == old(dht)
      ensures answer.Returned? ==> directory == old(directory)[key := stored]
      ensures answer.Raised? ==> directory == old(directory)
    {
      log := log + [PutServiceCall(key, stored)];
      if answer.Returned? {
        directory := directory[key := stored];
      }
      r := answer;
    }

    /** getServiceProvider(type, location). Matching a provider to the type
        and location happens on the remote side, so `answer` is the payload
        it sends back (None for no payload), or the error the call raises. */
    method GetServiceProvider(serviceType: Field, location: Field, answer: Outcome<Option<Payload>>)
      returns (r: Outcome<Option<Payload>>)
      modifies this
      ensures log == old(log) + [GetServiceProviderCall(serviceType, location)]
      ensures r == answer && dht == old(dht) && directory == old(directory)
    {
      log := log + [GetServiceProviderCall(serviceType, location)];
      r := answer;
    }
  }
}
