/** The request handlers of one front-end server, over the state they share:
    the local cache, the push-device registry, the push counter, the two
    stub user stores, and the proxy to the remote store. Each handler takes
    its request parameters, the current time where the cache is involved,
    and the outcome of each remote or push call it makes. */
module FlaskServer {
  import opened Common
  import TtlCache
  import opened Directory
  import opened Remote
  import opened Push
  import opened Users

  /** The reply to a generic put. */
  datatype PutReply = Written(key: string, value: string) | InvalidParameters(givenKey: Field, givenValue: Field)

  /** The reply to a generic get. */
  datatype GetReply = FromCache(value: string) | FromDht(value: string) | NotFound | NoKey

  /** The error Flask raises when a handler returns no response. */
  const NoResponse := "View function did not return a response"

  /** One request handed to the push service: the device tokens and the message. */
  datatype PushRequest = PushRequest(registrationIds: set<Field>, data: Message)

  class Server {
    var cache: TtlCache.Cache
    var deviceToken: map<Field, Field>
    var counter: nat
    var userDBSR: UserDB
    var userDBSP: UserDB
    /** Every request handed to the push service, in order. */
    var pushRequests: seq<PushRequest>
    const proxy: Proxy

    constructor (proxy: Proxy)
      ensures this.proxy == proxy
      ensures cache == map[] && deviceToken == map[] && counter == 0 && pushRequests == []
      ensures userDBSR == SeedSR && userDBSP == SeedSP
    {
      this.proxy := proxy;
      cache := map[];
      deviceToken := map[];
      counter := 0;
      userDBSR := SeedSR;
      userDBSP := SeedSP;
      pushRequests := [];
    }

    /** Registers a service under the fresh id `serviceId`: with all five
        parameters truthy, writes type -> id and then id -> record through
        putService, stopping at the first write that raises; otherwise makes
        no remote call at all. */
    method PostService(name: Field, serviceType: Field, location: Field, cost: Field, description: Field,
                       serviceId: string, answer1: Outcome<string>, answer2: Outcome<string>)
      returns (r: PostReply)
      modifies proxy
      ensures proxy.dht == old(proxy.dht)
      ensures !AllPresent(name, serviceType, location, cost, description) ==>
        r == MissingParameters && proxy.log == old(proxy.log) && proxy.directory == old(proxy.directory)
      ensures AllPresent(name, serviceType, location, cost, description) ==>
        var record := NewRecord(serviceId, name, serviceType, location, cost, description);
        var indexCall := PutServiceCall(serviceType.value, ServiceId(serviceId));
        var detailCall := PutServiceCall(serviceId, Detail(record));
        && (answer1.Raised? ==>
              && r == Failure(answer1.error)
              && proxy.log == old(proxy.log) + [indexCall]
              && proxy.directory == old(proxy.directory))
        && (answer1.Returned? && answer2.Raised? ==>
              && r == Failure(answer2.error)
              && proxy.log == old(proxy.log) + [indexCall, detailCall]
              && proxy.directory == old(proxy.directory)[serviceType.value := ServiceId(serviceId)])
        && (answer1.Returned? && answer2.Returned? ==>
              && r == Posted(SuccessMessage(answer1.value, answer2.value), serviceId)
              && proxy.log == old(proxy.log) + [indexCall, detailCall]
              && proxy.directory == old(proxy.directory)[serviceType.value := ServiceId(serviceId)][serviceId := Detail(record)])
      ensures r.Posted? ==> r.serviceId == serviceId && r.Status() == 0
      ensures !r.Posted? ==> r.Status() == 1
    {
      if AllPresent(name, serviceType, location, cost, description) {
        var record := NewRecord(serviceId, name, serviceType, location, cost, description);
        var message1 := proxy.PutService(serviceType.value, ServiceId(serviceId), answer1);
        if message1.Raised? {
          r := Failure(message1.error);
          return;
        }
        var message2 := proxy.PutService(serviceId, Detail(record), answer2);
        if message2.Raised? {
          r := Failure(message2.error);
          return;
        }
        r := Posted(SuccessMessage(message1.value, message2.value), serviceId);
      } else {
        r := MissingParameters;
      }
    }

    /** Looks up a provider of `serviceType` near `location`: one remote
        call, whose answer is shaped into the reply; an error raised by the
        call is not caught. */
    method GetServiceProvider(location: Field, serviceType: Field, answer: Outcome<Option<Payload>>)
      returns (r: Outcome<LookupReply>)
      modifies proxy
      ensures proxy.log == old(proxy.log) + [GetServiceProviderCall(serviceType, location)]
      ensures proxy.dht == old(proxy.dht) && proxy.directory == old(proxy.directory)
      ensures answer.Raised? ==> r == Raised(answer.error)
      ensures answer.Returned? ==> r == Returned(ShapeLookup(answer.value))
    {
      var provider := proxy.GetServiceProvider(serviceType, location, answer);
      if provider.Raised? {
        r := Raised(provider.error);
      } else {
        r := Returned(ShapeLookup(provider.value));
      }
    }

    /** Checks a login against the store of `userType`. For any other user
        type the handler returns no response, which Flask turns into an error. */
    method AuthUsers(username: Field, password: Field, userType: Field) returns (r: Outcome<StatusReply>)
      ensures userType == Some("sr") ==> r == Returned(Login(userDBSR, username, password))
      ensures userType == Some("sp") ==> r == Returned(Login(userDBSP, username, password))
      ensures userType != Some("sr") && userType != Some("sp") ==> r == Raised(NoResponse)
    {
      if userType == Some("sr") {
        return Returned(Login(userDBSR, username, password));
      }
      if userType == Some("sp") {
        return Returned(Login(userDBSP, username, password));
      }
      return Raised(NoResponse);
    }

    /** Stores a user in the store of `userType`, leaving the other store as
        it was; any other user type changes nothing. Always replies success. */
    method CreateUser(username: Field, password: Field, userType: Field) returns (r: StatusReply)
      modifies this`userDBSR, this`userDBSP
      ensures r == StatusReply(0, "success")
      ensures userType == Some("sp") ==> userDBSP == old(userDBSP)[username := password] && userDBSR == old(userDBSR)
      ensures userType == Some("sr") ==> userDBSR == old(userDBSR)[username := password] && userDBSP == old(userDBSP)
      ensures userType != Some("sp") && userType != Some("sr") ==>
        userDBSR == old(userDBSR) && userDBSP == old(userDBSP)
      ensures userType == Some("sp") ==> Login(userDBSP, username, password).status == 0
      ensures userType == Some("sr") ==> Login(userDBSR, username, password).status == 0
    {
      if userType == Some("sp") {
        userDBSP := userDBSP[username := password];
      }
      if userType == Some("sr") {
        userDBSR := userDBSR[username := password];
      }
      r := StatusReply(0, "success");
    }

    /** Sets `key` to `value` in the cache at time `now` and reads it back. */
    method TestCache(key: Field, value: Field, now: int) returns (cached: Field)
      modifies this`cache
      ensures cache == TtlCache.Set(old(cache), key, value, now)
      ensures cached == value
    {
      cache := TtlCache.Set(cache, key, value, now);
      cached := TtlCache.Get(cache, key, now);
    }

    /** Writes `key` -> `value` to the remote store and then to the cache.
        Without both parameters nothing is touched; when putDHT raises, the
        error is not caught and the cache is not set. */
    method TestPut(key: Field, value: Field, now: int, raises: Option<string>) returns (r: Outcome<PutReply>)
      modifies this`cache, proxy
      ensures proxy.directory == old(proxy.directory)
      ensures key.None? || value.None? ==>
        && r == Returned(InvalidParameters(key, value))
        && cache == old(cache)
        && proxy.log == old(proxy.log) && proxy.dht == old(proxy.dht)
      ensures key.Some? && value.Some? ==>
        && proxy.log == old(proxy.log) + [PutDhtCall(key.value, value.value)]
        && (raises.Some? ==> r == Raised(raises.value) && cache == old(cache) && proxy.dht == old(proxy.dht))
        && (raises.None? ==>
              && r == Returned(Written(key.value, value.value))
              && proxy.dht == old(proxy.dht)[key.value := value.value]
              && cache == TtlCache.Set(old(cache), key, value, now))
    {
      if key.Some? && value.Some? {
        var put := proxy.PutDHT(key.value, value.value, raises);
        if put.Raised? {
          r := Raised(put.error);
          return;
        }
        cache := TtlCache.Set(cache, key, value, now);
        r := Returned(Written(key.value, value.value));
      } else {
        r := Returned(InvalidParameters(key, value));
      }
    }

    /** Reads `key`: from the cache while it holds a live value for it, from
        the remote store otherwise, with exactly one getDHT call. The cache
        is never filled by a read, and an error raised by getDHT is not caught. */
    method TestGet(key: Field, now: int, raises: Option<string>) returns (r: Outcome<GetReply>)
      modifies proxy
      ensures cache == old(cache)
      ensures proxy.dht == old(proxy.dht) && proxy.directory == old(proxy.directory)
      ensures key.None? ==> r == Returned(NoKey) && proxy.log == old(proxy.log)
      ensures key.Some? && TtlCache.Get(cache, key, now).Some? ==>
        r == Returned(FromCache(TtlCache.Get(cache, key, now).value)) && proxy.log == old(proxy.log)
      ensures key.Some? && TtlCache.Get(cache, key, now).None? ==>
        && proxy.log == old(proxy.log) + [GetDhtCall(key.value)]
        && (raises.Some? ==> r == Raised(raises.value))
        && (raises.None? && key.value in proxy.dht ==> r == Returned(FromDht(proxy.dht[key.value])))
        && (raises.None? && key.value !in proxy.dht ==> r == Returned(NotFound))
    {
      if key.None? {
        return Returned(NoKey);
      }
      var cached := TtlCache.Get(cache, key, now);
      if cached.Some? {
        return Returned(FromCache(cached.value));
      }
      var entry := proxy.GetDHT(key.value, raises);
      if entry.Raised? {
        r := Raised(entry.error);
      } else if entry.value.Some? {
        r := Returned(FromDht(entry.value.value));
      } else {
        r := Returned(NotFound);
      }
    }

    /** Registers `token` as the push device of `username`. The user type is
        read from the request but not used. */
    method RegisterDevice(username: Field, userType: Field, token: Field) returns (status: string)
      modifies this`deviceToken
      ensures status == "0"
      ensures deviceToken == old(deviceToken)[username := token]
      ensures deviceToken.Keys == old(deviceToken).Keys + {username}
      ensures forall u :: u in old(deviceToken) && u != username ==> deviceToken[u] == old(deviceToken)[u]
      ensures username in old(deviceToken) && old(deviceToken)[username] == token ==> deviceToken == old(deviceToken)
    {
      if username !in deviceToken {
        deviceToken := deviceToken[username := token];
      } else if deviceToken[username] != token {
        deviceToken := deviceToken[username := token];
      }
      status := "0";
    }

    /** Sends the next canned message to every registered device token, then
        advances the counter. `raises` is the error the push service raises,
        if any; it is not caught, so the counter does not advance. */
    method SendTestPush(raises: Option<string>) returns (r: Outcome<string>)
      modifies this`pushRequests, this`counter
      ensures pushRequests == old(pushRequests) + [PushRequest(deviceToken.Values, PushMessage(old(counter)))]
      ensures raises.None? ==> r == Returned("0") && counter == old(counter) + 1
      ensures raises.Some? ==> r == Raised(raises.value) && counter == old(counter)
    {
      var data := PushMessage(counter);
      pushRequests := pushRequests + [PushRequest(deviceToken.Values, data)];
      if raises.Some? {
        return Raised(raises.value);
      }
      counter := counter + 1;
      r := Returned("0");
    }
  }

  /** One push request per message, each to the same device tokens. */
  function Addressed(tokens: set<Field>, messages: seq<Message>): (r: seq<PushRequest>)
    ensures |r| == |messages|
    ensures forall k :: 0 <= k < |r| ==> r[k].registrationIds == tokens && r[k].data == messages[k]
  {
    if messages == [] then [] else [PushRequest(tokens, messages[0])] + Addressed(tokens, messages[1..])
  }

  /** The requests that six successful test pushes append, starting from
      `counter`, with the device tokens `tokens`. */
  function SixRequests(tokens: set<Field>, counter: nat): seq<PushRequest>
  {
    [PushRequest(tokens, PushMessage(counter)), PushRequest(tokens, PushMessage(counter + 1)),
     PushRequest(tokens, PushMessage(counter + 2)), PushRequest(tokens, PushMessage(counter + 3)),
     PushRequest(tokens, PushMessage(counter + 4)), PushRequest(tokens, PushMessage(counter + 5))]
  }

  /** Those six requests carry the messages of six consecutive calls: five
      different messages, then the first one again. */
  lemma SixRequestsRotate(tokens: set<Field>, counter: nat)
    ensures SixRequests(tokens, counter) == Addressed(tokens, Broadcasts(counter, 6))
    ensures forall i, j :: 0 <= i < j < 5 ==> SixRequests(tokens, counter)[i].data != SixRequests(tokens, counter)[j].data
    ensures SixRequests(tokens, counter)[5].data == SixRequests(tokens, counter)[0].data
  {
    SixBroadcasts(counter);
    FiveDistinctThenRepeat(counter);
  }

  /** Six successful test pushes in a row, with the device tokens as they
      stand. By SixRequestsRotate, the first five carry different messages
      and the sixth repeats the first. */
  method SixTestPushes(s: Server)
    modifies s`pushRequests, s`counter
    ensures s.counter == old(s.counter) + 6
    ensures s.pushRequests == old(s.pushRequests) + SixRequests(s.deviceToken.Values, old(s.counter))
  {
    var _ := s.SendTestPush(None);
    var _ := s.SendTestPush(None);
    var _ := s.SendTestPush(None);
    var _ := s.SendTestPush(None);
    var _ := s.SendTestPush(None);
    var _ := s.SendTestPush(None);
  }
}
