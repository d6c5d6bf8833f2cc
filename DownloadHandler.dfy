/** The managed defaults of `UnityEngine.Experimental.Networking.DownloadHandler` and the
    checks it makes before handing out a request's handler. UTF-8 decoding is an input
    (`decodeUtf8`), as is the request, whose fields the native engine fills in. */
module Networking {
  import opened Wrappers

  newtype byte = x: int | 0 <= x < 256

  /** The state of a `UnityWebRequest` as `GetCheckedDownloader` sees it; `H` is the handler. */
  datatype UnityWebRequest<H> = UnityWebRequest(isDone: bool, isError: bool, error: string, downloadHandler: Option<H>)

  datatype InvalidOperationReason = Unfinished | RequestError(error: string)

  datatype DownloadError =
    | NullReference                            // `NullReferenceException`: no request
    | InvalidOperation(reason: InvalidOperationReason) // `InvalidOperationException`
    | InvalidCast                              // the handler is not of the requested type

  /** The base `GetData`: no data. */
  function GetData(): (r: Option<seq<byte>>)
    ensures r.None?
  {
    None
  }

  /** `GetText` on the bytes `GetData` gave: empty for null or empty data, otherwise the UTF-8
      decoding of all of the bytes. */
  function GetText(data: Option<seq<byte>>, decodeUtf8: seq<byte> -> string): (r: string)
    ensures data.None? || |data.value| == 0 ==> r == ""
    ensures data.Some? && |data.value| > 0 ==> r == decodeUtf8(data.value)
  {
    if data.Some? && |data.value| > 0 then
      assert data.value[0..|data.value|] == data.value;
      decodeUtf8(data.value[0..|data.value|])
    else ""
  }

  /** A handler that keeps the base `GetData` has empty text, whatever the decoder. */
  lemma BaseHandlerTextIsEmpty(decodeUtf8: seq<byte> -> string)
    ensures GetText(GetData(), decodeUtf8) == ""
  {
  }

  /** The base `ReceiveData`: always continue the download. */
  function ReceiveData(data: Option<seq<byte>>, dataLength: int): (r: bool)
    ensures r
  {
    true
  }

  /** The base `GetProgress`. */
  function GetProgress(): (r: real)
    ensures r == 0.5
  {
    0.5
  }

  /** `GetCheckedDownloader<T>`: in order, a null request, an unfinished request and a failed
      request throw; otherwise the request's handler, cast to `T` (`isT`; a null handler casts). */
  function GetCheckedDownloader<H>(www: Option<UnityWebRequest<H>>, isT: H -> bool): (r: Result<Option<H>, DownloadError>)
    ensures www.None? ==> r == Failure(NullReference)
    ensures www.Some? && !www.value.isDone ==> r == Failure(InvalidOperation(Unfinished))
    ensures www.Some? && www.value.isDone && www.value.isError ==> r == Failure(InvalidOperation(RequestError(www.value.error)))
    ensures r.Success? <==> www.Some? && www.value.isDone && !www.value.isError &&
                            (www.value.downloadHandler.None? || isT(www.value.downloadHandler.value))
    ensures r.Success? ==> r.value == www.value.downloadHandler
  {
    if www.None? then Failure(NullReference)
    else if !www.value.isDone then Failure(InvalidOperation(Unfinished))
    else if www.value.isError then Failure(InvalidOperation(RequestError(www.value.error)))
    else if www.value.downloadHandler.Some? && !isT(www.value.downloadHandler.value) then Failure(InvalidCast)
    else Success(www.value.downloadHandler)
  }
}
