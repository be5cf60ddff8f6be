/**
 * The pure part of the LED bridge server: which of the three LEDs a status
 * string lights, what the `/set_led` endpoint answers, and what a sequence
 * of requests leaves on the LEDs.
 */
module LedStatus {
  import opened Wrappers

  /** The three output levels, `true` meaning HIGH (lit). */
  datatype Lights = Lights(green: bool, yellow: bool, red: bool)

  const AllOff := Lights(false, false, false)

  /**
   * The statuses that light an LED. Every other string, including the
   * recognised "checked-out" and "off", leaves all three dark.
   */
  const LitStatuses: set<string> := {"available", "charging", "faulty"}

  function LitCount(l: Lights): nat {
    (if l.green then 1 else 0) + (if l.yellow then 1 else 0) + (if l.red then 1 else 0)
  }

  predicate AtMostOneLit(l: Lights) {
    LitCount(l) <= 1
  }

  /**
   * The LED levels `set_led_status(status)` leaves behind: all three are
   * driven LOW, then at most one is raised.
   */
  function Render(status: string): (r: Lights)
    ensures r.green <==> status == "available"
    ensures r.yellow <==> status == "charging"
    ensures r.red <==> status == "faulty"
    ensures r == AllOff <==> status !in LitStatuses
    ensures AtMostOneLit(r)
  {
    if status == "available" then Lights(true, false, false)
    else if status == "charging" then Lights(false, true, false)
    else if status == "faulty" then Lights(false, false, true)
    else AllOff
  }

  /** Python truthiness of the extracted `status` field: absent (None) and "" are falsy. */
  predicate Truthy(status: Option<string>) {
    status.Some? && status.value != ""
  }

  const NoStatusError := "No status provided"

  /** The JSON answer of `/set_led` together with its HTTP status code. */
  datatype Response =
    | Accepted(statusSet: string)
    | Rejected(error: string)
  {
    function Code(): int {
      if Accepted? then 200 else 400
    }

    function Success(): bool {
      Accepted?
    }
  }

  /**
   * What `set_led_route` answers for the extracted `status` field. Unknown
   * statuses are not validated: they are echoed back as a success.
   */
  function Respond(status: Option<string>): (r: Response)
    ensures r.Success() <==> Truthy(status)
    ensures r.Success() ==> r.Code() == 200 && status == Some(r.statusSet)
    ensures !r.Success() ==> r.Code() == 400 && r.error == "No status provided"
  {
    if !Truthy(status) then Rejected(NoStatusError) else Accepted(status.value)
  }

  /** The effect of one request on the LEDs: a rejected request changes nothing. */
  function Step(l: Lights, status: Option<string>): Lights {
    if Truthy(status) then Render(status.value) else l
  }

  /** The LEDs after serving `reqs` in order, starting from `l`. */
  function Run(l: Lights, reqs: seq<Option<string>>): Lights
    decreases |reqs|
  {
    if reqs == [] then l else Step(Run(l, reqs[..|reqs| - 1]), reqs[|reqs| - 1])
  }

  /** The status of the last request in `reqs` that the endpoint accepted, if any. */
  function LastAccepted(reqs: seq<Option<string>>): (r: Option<string>)
    decreases |reqs|
  {
    if reqs == [] then None
    else if Truthy(reqs[|reqs| - 1]) then reqs[|reqs| - 1]
    else LastAccepted(reqs[..|reqs| - 1])
  }

  /** Every accepted status was non-empty and occurs among the requests. */
  lemma {:induction false} LastAcceptedIsAccepted(reqs: seq<Option<string>>)
    ensures LastAccepted(reqs).Some? ==> Truthy(LastAccepted(reqs)) && LastAccepted(reqs) in reqs
    ensures LastAccepted(reqs).None? <==> forall i :: 0 <= i < |reqs| ==> !Truthy(reqs[i])
  {
    if reqs != [] {
      var init := reqs[..|reqs| - 1];
      LastAcceptedIsAccepted(init);
      assert reqs == init + [reqs[|reqs| - 1]];
    }
  }

  /**
   * Last write wins: after any sequence of requests the LEDs show the last
   * accepted status, whatever came before it; if none was accepted they are
   * as they started.
   */
  lemma {:induction false} LastWriteWins(l: Lights, reqs: seq<Option<string>>)
    ensures Run(l, reqs) == match LastAccepted(reqs)
                            case None => l
                            case Some(s) => Render(s)
  {
    if reqs != [] {
      LastWriteWins(l, reqs[..|reqs| - 1]);
    }
  }

  /** Once some request has been accepted, the earlier LED state no longer matters. */
  lemma {:induction false} IndependentOfStart(l1: Lights, l2: Lights, reqs: seq<Option<string>>)
    requires exists i :: 0 <= i < |reqs| && Truthy(reqs[i])
    ensures Run(l1, reqs) == Run(l2, reqs)
  {
    LastAcceptedIsAccepted(reqs);
    LastWriteWins(l1, reqs);
    LastWriteWins(l2, reqs);
  }

  /** No sequence of requests lights two LEDs at once, if at most one was lit before. */
  lemma {:induction false} KeepsAtMostOneLit(l: Lights, reqs: seq<Option<string>>)
    requires AtMostOneLit(l)
    ensures AtMostOneLit(Run(l, reqs))
  {
    LastWriteWins(l, reqs);
  }

  /** Repeating a request straight away has no further effect on the LEDs. */
  lemma RepeatRequest(l: Lights, reqs: seq<Option<string>>, status: Option<string>)
    ensures Run(l, reqs + [status, status]) == Run(l, reqs + [status])
  {
    assert (reqs + [status, status])[..|reqs| + 1] == reqs + [status];
    assert (reqs + [status])[..|reqs|] == reqs;
  }

  /** Serving the same sequence of requests a second time changes nothing. */
  lemma {:induction false} ReplayIdempotent(l: Lights, reqs: seq<Option<string>>)
    ensures Run(Run(l, reqs), reqs) == Run(l, reqs)
  {
    LastWriteWins(l, reqs);
    LastWriteWins(Run(l, reqs), reqs);
  }

  /** Requests that are all rejected leave the LEDs untouched. */
  lemma {:induction false} RejectedChangeNothing(l: Lights, reqs: seq<Option<string>>)
    requires forall i :: 0 <= i < |reqs| ==> !Truthy(reqs[i])
    ensures Run(l, reqs) == l
  {
    LastAcceptedIsAccepted(reqs);
    LastWriteWins(l, reqs);
  }
}
