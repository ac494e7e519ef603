/** The two context headers of a request message: their keys, how each is read back with a
  * default when absent, and how each is written. */
module MessageExtensions {
  import opened Wrappers
  import opened Guids
  import opened RequestDatas
  import opened Remoting

  const RequestDataHeaderKey: string := "RequestDataHeaderKey"
  const CorrelationIdHeaderKey: string := "ColerationIdHeaderKey"

  /** The two keys differ, so neither header can overwrite the other. */
  lemma HeaderKeysDistinct()
    ensures RequestDataHeaderKey != CorrelationIdHeaderKey
    ensures |RequestDataHeaderKey| == 20 && |CorrelationIdHeaderKey| == 21
  {
  }

  /** `after` holds the same headers as `before` under every name other than `name`. */
  ghost predicate SameExcept(before: Headers, after: Headers, name: string)
  {
    forall k :: k != name ==> (k in before <==> k in after) && (k in before ==> after[k] == before[k])
  }

  /** `GetColerationId`: `Guid.Empty` when the header is absent, otherwise the Guid built from its
    * bytes, which fails unless there are exactly 16 of them. */
  function GetCorrelationId(headers: Headers): (r: Result<Guid>)
    ensures CorrelationIdHeaderKey !in headers ==> r == Success(Empty)
    ensures r.Failure? <==> CorrelationIdHeaderKey in headers && |headers[CorrelationIdHeaderKey]| != 16
    ensures r.Failure? ==> r.error == ArgumentInvalid
    ensures r.Success? && CorrelationIdHeaderKey in headers ==>
              ToByteArray(r.value) == headers[CorrelationIdHeaderKey]
  {
    if CorrelationIdHeaderKey in headers then
      var bytes := headers[CorrelationIdHeaderKey];
      if |bytes| == 16 then BytesRoundTrip(bytes); FromByteArray(bytes)
      else FromByteArray(bytes)
    else Success(Empty)
  }

  /** `GetRequestData`: null when the header is absent, otherwise what `Deserialize` makes of it. */
  function GetRequestData(headers: Headers, codec: Codec): (r: Result<Option<RequestData>>)
    ensures r == Success(None) <==> RequestDataHeaderKey !in headers
    ensures RequestDataHeaderKey in headers ==>
              match codec.deserialize(headers[RequestDataHeaderKey])
              case Success(d) => r == Success(Some(d))
              case Failure(e) => r == Failure(e)
  {
    if RequestDataHeaderKey in headers then
      match codec.deserialize(headers[RequestDataHeaderKey])
      case Success(d) => Success(Some(d))
      case Failure(e) => Failure(e)
    else Success(None)
  }

  /** The header set `SetRequestData` leaves: `requestData.Serialize()` on a null request data
    * raises before any header is added. */
  function WithRequestData(headers: Headers, requestData: Option<RequestData>, codec: Codec): (r: Result<Headers>)
    ensures r.Failure? <==> requestData.None?
    ensures r.Failure? ==> r.error == NullReference
    ensures r.Success? ==> RequestDataHeaderKey in r.value
                           && r.value[RequestDataHeaderKey] == codec.serialize(requestData.value)
    ensures r.Success? ==> SameExcept(headers, r.value, RequestDataHeaderKey)
  {
    match requestData
    case None => Failure(NullReference)
    case Some(d) => Success(headers[RequestDataHeaderKey := codec.serialize(d)])
  }

  /** The header set `SetColerationId` leaves. */
  function WithCorrelationId(headers: Headers, correlationId: Guid): (r: Headers)
    ensures CorrelationIdHeaderKey in r && |r[CorrelationIdHeaderKey]| == 16
    ensures SameExcept(headers, r, CorrelationIdHeaderKey)
  {
    headers[CorrelationIdHeaderKey := ToByteArray(correlationId)]
  }

  /** `SetRequestData`: adds the serialized request data under its key, or raises on null. */
  method SetRequestData(message: RequestMessage, requestData: Option<RequestData>, codec: Codec)
    returns (r: Outcome)
    modifies message
    ensures requestData.None? ==> r == Fail(NullReference) && message.headers == old(message.headers)
    ensures requestData.Some? ==> r == Pass
                                  && message.headers == WithRequestData(old(message.headers), requestData, codec).value
  {
    if requestData.None? {
      return Fail(NullReference);
    }
    message.AddHeader(RequestDataHeaderKey, codec.serialize(requestData.value));
    r := Pass;
  }

  /** `SetColerationId`: adds the Guid's 16-byte form under its key. */
  method SetCorrelationId(message: RequestMessage, correlationId: Guid)
    modifies message
    ensures message.headers == WithCorrelationId(old(message.headers), correlationId)
    ensures GetCorrelationId(message.headers) == Success(correlationId)
  {
    message.AddHeader(CorrelationIdHeaderKey, ToByteArray(correlationId));
    CorrelationIdRoundTrip(old(message.headers), correlationId);
  }

  /** Writing a correlation id and reading it back gives the same Guid. */
  lemma CorrelationIdRoundTrip(headers: Headers, correlationId: Guid)
    ensures GetCorrelationId(WithCorrelationId(headers, correlationId)) == Success(correlationId)
  {
    GuidRoundTrip(correlationId);
  }

  /** Writing request data and reading it back gives the same record, if Deserialize inverts Serialize. */
  lemma RequestDataRoundTrip(headers: Headers, requestData: RequestData, codec: Codec)
    requires codec.RoundTrips()
    ensures WithRequestData(headers, Some(requestData), codec).Success?
    ensures GetRequestData(WithRequestData(headers, Some(requestData), codec).value, codec)
            == Success(Some(requestData))
  {
  }

  /** Each setter touches only its own key, so the other header reads as before. */
  lemma SettersAreIndependent(headers: Headers, requestData: RequestData, correlationId: Guid, codec: Codec)
    ensures GetCorrelationId(WithRequestData(headers, Some(requestData), codec).value) == GetCorrelationId(headers)
    ensures GetRequestData(WithCorrelationId(headers, correlationId), codec) == GetRequestData(headers, codec)
  {
  }
}
