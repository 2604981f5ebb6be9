/** The response-to-result decision of `processNumberplateImage`: the image
    is posted to `<endpoint>/api/process-plate` and the reply becomes either a
    new `PlateResult` or an error. The request itself is abstracted as the
    `Reply` it produced; the two clock readings (`Date.now()` for the id and
    again for the timestamp) are inputs. */
module Recognition {
  import opened Records
  import Text

  /** The fields of a received HTTP response the client looks at. */
  datatype Response = Response(
    status: nat,
    statusText: string,
    numberplate: Option<string>,
    confidence: Option<Confidence>)

  /** What the request came to: a rejected fetch (network failure, failed
      image conversion, undecodable body), or a received response. */
  datatype Reply = TransportError(message: string) | Received(response: Response)

  /** `response.ok`: the status is in the range 200-299. */
  predicate IsOk(status: nat) {
    200 <= status <= 299
  }

  /** The errors `processNumberplateImage` throws. */
  datatype Failure =
    | NotConfigured
    | ApiError(status: nat, statusText: string)
    | NoNumberplate
    | Transport(message: string)

  /** The message of each thrown error. Apart from a transport failure,
      whose message is the platform's, a message starts with "API error: "
      exactly when it reports a status. */
  function FailureText(f: Failure): (r: string)
    ensures !f.Transport? ==> (f.ApiError? <==> Text.IsPrefix("API error: ", r))
  {
    match f
    case NotConfigured =>
      // written in two parts so that its characters are known to the verifier
      var r := "API endpoint not configured." + " Please set it in the Settings page.";
      Text.NotPrefixAt("API error: ", r, 5);
      r
    case ApiError(status, statusText) => "API error: " + Text.Decimal(status) + " " + statusText
    case NoNumberplate =>
      var r := "No numberplate detected or recognized";
      Text.NotPrefixAt("API error: ", r, 0);
      r
    case Transport(message) => message
  }

  datatype Outcome = Recognized(plate: PlateResult) | Failed(failure: Failure)

  /** `processNumberplateImage`, given the stored endpoint, the reply the
      request would get, and the clock readings. */
  function Recognize(endpoint: Option<string>, reply: Reply, id: string, now: int): (r: Outcome)
    ensures !Truthy(endpoint) ==> r == Failed(NotConfigured)
    ensures Truthy(endpoint) && reply.TransportError? ==> r == Failed(Transport(reply.message))
    ensures Truthy(endpoint) && reply.Received? && !IsOk(reply.response.status) ==>
      r == Failed(ApiError(reply.response.status, reply.response.statusText))
    ensures r.Recognized? <==>
      Truthy(endpoint) && reply.Received? && IsOk(reply.response.status) && Truthy(reply.response.numberplate)
    ensures r.Recognized? ==>
      && r.plate.id == id && r.plate.timestamp == now
      && Some(r.plate.numberplate) == reply.response.numberplate
      && r.plate.confidence == reply.response.confidence
    ensures r.Failed? && r.failure == NoNumberplate <==>
      Truthy(endpoint) && reply.Received? && IsOk(reply.response.status) && !Truthy(reply.response.numberplate)
  {
    if !Truthy(endpoint) then Failed(NotConfigured)
    else match reply
      case TransportError(message) => Failed(Transport(message))
      case Received(response) =>
        if !IsOk(response.status) then Failed(ApiError(response.status, response.statusText))
        else if !Truthy(response.numberplate) then Failed(NoNumberplate)
        else Recognized(PlateResult(id, response.numberplate.value, now, response.confidence))
  }

  /** The digits at the front of `s`, where a status code is read back. */
  function LeadingDigits(s: string): (r: string)
    ensures forall i :: 0 <= i < |r| ==> '0' <= r[i] <= '9'
  {
    if s != [] && '0' <= s[0] <= '9' then [s[0]] + LeadingDigits(s[1..]) else []
  }

  /** The digits of `d` are read back up to the space that ends them. */
  lemma {:induction false} LeadingDigitsOf(d: string, rest: string)
    requires forall i :: 0 <= i < |d| ==> '0' <= d[i] <= '9'
    ensures LeadingDigits(d + " " + rest) == d
    decreases |d|
  {
    if d == [] {
      assert d + " " + rest == " " + rest;
    } else {
      assert (d + " " + rest)[1..] == d[1..] + " " + rest;
      LeadingDigitsOf(d[1..], rest);
    }
  }

  /** The API error message reports the status: the digits that follow
      "API error: " denote it, whatever the status text says. */
  lemma ApiErrorStatusReadBack(status: nat, statusText: string)
    ensures var r := FailureText(ApiError(status, statusText));
      |r| >= 11 && Text.DigitsValue(LeadingDigits(r[11..])) == status
  {
    var d := Text.Decimal(status);
    var r := FailureText(ApiError(status, statusText));
    assert r[11..] == d + " " + statusText;
    LeadingDigitsOf(d, statusText);
  }

  /** How both capture pages report a failure: the two failures they detect
      themselves are shown as is, the thrown ones after a prefix. */
  function CaptureErrorText(f: Failure): (r: string)
    ensures Text.IsPrefix("Error processing image: ", r) <==> !(f.NotConfigured? || f.NoNumberplate?)
    ensures !(f.NotConfigured? || f.NoNumberplate?) ==> r[24..] == FailureText(f)
    ensures f.NotConfigured? || f.NoNumberplate? ==> r == FailureText(f)
  {
    match f
    case NotConfigured =>
      Text.NotPrefixAt("Error processing image: ", FailureText(f), 0);
      FailureText(f)
    case NoNumberplate =>
      Text.NotPrefixAt("Error processing image: ", FailureText(f), 0);
      FailureText(f)
    case _ => "Error processing image: " + FailureText(f)
  }

  const SuccessMessage := "Numberplate processed successfully!"
}
