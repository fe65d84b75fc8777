/** `returnDataObject` (platform/dist/axios.js): which shape of a successful
    response the caller gets, with the `Proxy` that traps reads of `data`
    written as a variant whose accessor returns an error. */
module ResponseGuard {
  import opened JsValues
  import opened Http

  /** The whole response, the body as it is, or the body behind the guard. */
  datatype Output = Full(response: Response) | Raw(body: Value) | Guarded(body: Value)

  /** `returnDataObject(response, returnFullResponse)`. Reading `response.data.data`
      throws on a null or undefined body, and `new Proxy` throws on a body
      that is not an object. */
  function ReturnDataObject(response: Response, returnFullResponse: Value): (r: Result<Output, Exception>)
    ensures Truthy(returnFullResponse) ==> r == Ok(Full(response))
    ensures !Truthy(returnFullResponse) && !IsPresent(response.data) ==> r.Err? && r.error.TypeError?
    ensures !Truthy(returnFullResponse) && IsPresent(response.data) ==>
              if Truthy(GetProp(response.data, "data").value) then r == Ok(Raw(response.data))
              else if response.data.Obj? || response.data.Arr? then r == Ok(Guarded(response.data))
              else r.Err? && r.error.TypeError?
  {
    if Truthy(returnFullResponse) then Ok(Full(response))
    else
      match GetProp(response.data, "data")
      case None => Err(TypeError("Cannot read properties of " + ToStr(response.data) + " (reading 'data')"))
      case Some(inner) =>
        if Truthy(inner) then Ok(Raw(response.data))
        else if response.data.Obj? || response.data.Arr? then Ok(Guarded(response.data))
        else Err(TypeError("Cannot create proxy with a non-object as target or handler"))
  }

  /** A property read on what the caller received. */
  function Read(o: Output, k: string): (r: Result<Value, Exception>)
  {
    match o
    case Full(resp) =>
      Ok(if k == "data" then resp.data
         else if k == "status" then Num(resp.status)
         else if k == "headers" then Obj(resp.headers)
         else if k == "request" && resp.request.Some? then resp.request.value
         else Undefined)
    case Raw(body) =>
      (match GetProp(body, k)
       case None => Err(TypeError("Cannot read properties of " + ToStr(body)))
       case Some(v) => Ok(v))
    case Guarded(body) =>
      if k == "data" then Err(NonexistentDataPropertyError)
      else
        match GetProp(body, k)
        case None => Err(TypeError("Cannot read properties of " + ToStr(body)))
        case Some(v) => Ok(v)
  }

  /** The guard: on the guarded view a read of `data` fails with
      NonexistentDataPropertyError, and every other read passes through to the
      body: an object's own properties, an array's `length` and its elements. */
  lemma GuardedReads(body: Value, k: string)
    requires body.Obj? || body.Arr?
    ensures Read(Guarded(body), "data") == Err(NonexistentDataPropertyError)
    ensures k != "data" ==> Read(Guarded(body), k) == Ok(GetProp(body, k).value)
    ensures body.Obj? && k != "data" && HasKey(body.props, k) ==> Read(Guarded(body), k) == Ok(Lookup(body.props, k).value)
    ensures body.Arr? ==> Read(Guarded(body), "length") == Ok(Num(|body.items|))
    ensures body.Arr? ==> forall i :: 0 <= i < |body.items| ==> Read(Guarded(body), NatToDecimal(i)) == Ok(body.items[i])
  {
    if body.Arr? {
      forall i | 0 <= i < |body.items|
        ensures Read(Guarded(body), NatToDecimal(i)) == Ok(body.items[i])
      {
        ArrayElementRead(body.items, i);
        assert NatToDecimal(i) != "data" by {
          assert '0' <= NatToDecimal(i)[0] <= '9';
        }
      }
    }
  }

  /** Unless the full response is asked for, shaping fails exactly when the
      body is not an object or an array (null, undefined or a primitive), and
      then with a TypeError; an object or array body always comes back. */
  lemma ThrowsOnlyOnNonObjectBody(response: Response, returnFullResponse: Value)
    ensures ReturnDataObject(response, returnFullResponse).Err? <==>
              !Truthy(returnFullResponse) && !response.data.Obj? && !response.data.Arr?
    ensures ReturnDataObject(response, returnFullResponse).Err? ==>
              ReturnDataObject(response, returnFullResponse).error.TypeError?
  {
  }

  /** What the guard is for: unless the full response was asked for, a caller
      reading `.data` on the result either gets a truthy value or an explicit
      error, never a silent `undefined`; and every other property reads as on
      the response body. */
  lemma {:induction false} NoSilentMissingData(response: Response, returnFullResponse: Value, k: string)
    requires !Truthy(returnFullResponse)
    requires ReturnDataObject(response, returnFullResponse).Ok?
    ensures var o := ReturnDataObject(response, returnFullResponse).value;
            && (Read(o, "data") == Err(NonexistentDataPropertyError)
                || (Read(o, "data").Ok? && Truthy(Read(o, "data").value)))
            && (k != "data" ==> Read(o, k) == Ok(GetProp(response.data, k).value))
  {
    var o := ReturnDataObject(response, returnFullResponse).value;
    if o.Raw? {
      assert Read(o, "data") == Ok(GetProp(response.data, "data").value);
    } else {
      GuardedReads(response.data, k);
    }
  }

  /** With `returnFullResponse` the caller reads the response itself. */
  lemma FullResponseReads(response: Response, returnFullResponse: Value)
    requires Truthy(returnFullResponse)
    ensures Read(ReturnDataObject(response, returnFullResponse).value, "data") == Ok(response.data)
    ensures Read(ReturnDataObject(response, returnFullResponse).value, "status") == Ok(Num(response.status))
  {
  }
}
