/** Reassembling a tag's response: nativeNfcTag_doTransceive arms the buffer and waits, the stack's callbacks fill
    it fragment by fragment.  What a Mifare Classic tag sends goes to the extension library first, which hands the
    decoded response back through the same callback. */
module Transceives {
  import opened Bytes
  import opened Options

  datatype Status = Ok | Continue | OtherStatus(code: int)

  /** `notified`: sTransceiveEvent has been signalled since the buffer was armed. */
  datatype Trans = Trans(waiting: bool, timedOut: bool, status: Status, buffer: seq<Byte>, notified: bool)

  const IDLE := Trans(false, false, Ok, [], false)

  /** `raw`: the tag is a Mifare Classic one, and the extension library has not called back yet. */
  datatype Event = Arm | Fragment(status: Status, data: seq<Byte>, raw: bool) | RfTimeout | Disarm(lost: bool)

  function Next(t: Trans, e: Event): Trans {
    match e
    case Arm => Trans(true, false, Ok, [], false)
    case Fragment(status, data, raw) =>
      if raw || !t.waiting then t
      else t.(status := status, buffer := if status.OtherStatus? then t.buffer else t.buffer + data,
              notified := t.notified || status.Ok?)
    case RfTimeout => if !t.waiting then t else t.(timedOut := true, notified := true)
    case Disarm(lost) => t.(waiting := false, buffer := if lost then t.buffer else [])
  }

  function After(t: Trans, run: seq<Event>): Trans {
    if run == [] then t else Next(After(t, run[..|run| - 1]), run[|run| - 1])
  }

  datatype Kind = Type2 | Classic | OtherTag

  /** What the call returns: the tag is lost, or there is nothing to return, or data. */
  datatype Response = TargetLost | Nothing | Data(bytes: seq<Byte>)

  const ACK: Byte := 0xA

  /** isT2tNackResponse */
  predicate IsNack(response: seq<Byte>) { |response| == 1 && response[0] != ACK }

  /** After the wait there is no answer: a time-out, or the tag is no longer active. */
  predicate IsLost(t: Trans, waitOk: bool, active: bool) { !waitOk || t.timedOut || !active }

  /** What doTransceive returns; `checked` is what the extension library makes of a Mifare Classic response, None when
      it finds it failed. */
  function Respond(t: Trans, waitOk: bool, active: bool, kind: Kind, checked: Option<seq<Byte>>): Response {
    if IsLost(t, waitOk, active) then TargetLost
    else if t.buffer == [] || (kind.Type2? && IsNack(t.buffer)) then Nothing
    else if !kind.Classic? then Data(t.buffer)
    else if checked.None? || checked.value == [] then Nothing
    else Data(checked.value)
  }

  class Transceiver {
    var waiting: bool
    var timedOut: bool
    var status: Status
    var buffer: seq<Byte>
    var notified: bool

    function Value(): Trans
      reads this
    {
      Trans(waiting, timedOut, status, buffer, notified)
    }

    constructor ()
      ensures Value() == IDLE
    {
      waiting, timedOut, status, buffer, notified := false, false, Ok, [], false;
    }

    /** doTransceive, up to the wait */
    method ArmBuffer()
      modifies this
      ensures Value() == Next(old(Value()), Arm)
    {
      timedOut, waiting, status, buffer, notified := false, true, Ok, [], false;
    }

    /** `extension` is what goes to the extension library. */
    method DoTransceiveStatus(newStatus: Status, data: seq<Byte>, mifare: bool, calledBack: bool)
      returns (extension: Option<seq<Byte>>)
      modifies this
      ensures Value() == Next(old(Value()), Fragment(newStatus, data, mifare && !calledBack))
      ensures extension == if mifare && !calledBack then Some(data) else None
    {
      extension := None;
      if mifare && !calledBack {
        return Some(data);
      }
      if !waiting {
        return;
      }
      status := newStatus;
      if status == Ok || status == Continue {
        buffer := buffer + data;
      }
      if status == Ok {
        notified := true;
      }
    }

    method NotifyRfTimeout()
      modifies this
      ensures Value() == Next(old(Value()), RfTimeout)
    {
      if !waiting {
        return;
      }
      timedOut := true;
      notified := true;
    }

    /** doTransceive, after the wait */
    method Finish(waitOk: bool, active: bool, kind: Kind, checked: Option<seq<Byte>>)
      returns (response: Response, reconnect: bool)
      modifies this
      ensures response == Respond(old(Value()), waitOk, active, kind, checked)
      ensures Value() == Next(old(Value()), Disarm(IsLost(old(Value()), waitOk, active)))
      ensures reconnect <==> response.Nothing? && old(buffer) != [] && (kind.Classic? ==> checked.None?)
    {
      response, reconnect := TargetLost, false;
      if waitOk && !timedOut && active {
        response := Nothing;
        if buffer != [] {
          if kind == Type2 && IsNack(buffer) {
            reconnect := true;
          } else if kind == Classic {
            match checked {
              case None => reconnect := true;
              case Some(bytes) => if bytes != [] { response := Data(bytes); }
            }
          } else {
            response := Data(buffer);
          }
          buffer := [];
        }
      }
      waiting := false;
    }
  }

  // ---- what a response is ----

  /** The payloads of the fragments that carry data, not those for the extension library */
  function Payloads(run: seq<Event>): seq<Byte> {
    if run == [] then []
    else Payloads(run[..|run| - 1]) + Payload(run[|run| - 1])
  }

  function Payload(e: Event): seq<Byte> {
    if e.Fragment? && !e.raw && !e.status.OtherStatus? then e.data else []
  }

  predicate IsLast(e: Event) { e.Fragment? && !e.raw && e.status.Ok? }

  lemma {:induction false} OneMoreEvent(t: Trans, run: seq<Event>, e: Event)
    ensures After(t, run + [e]) == Next(After(t, run), e)
  {
    var all := run + [e];
    assert all[..|all| - 1] == run && all[|all| - 1] == e;
  }

  lemma {:induction false} OneMorePayload(run: seq<Event>, e: Event)
    ensures Payloads(run + [e]) == Payloads(run) + Payload(e)
    ensures RfTimeout in run + [e] <==> RfTimeout in run || e == RfTimeout
    ensures (exists x <- run + [e] :: IsLast(x)) <==> (exists x <- run :: IsLast(x)) || IsLast(e)
  {
    var all := run + [e];
    assert all[..|all| - 1] == run;
    assert e in all;
    assert forall x <- run :: x in all;
  }

  /** Between the arming and the wake the buffer holds the payloads received since, whatever happened before;
      the event is signalled once a last fragment or a time-out has come, and no other way. */
  lemma {:induction false} BufferHoldsPayloads(before: seq<Event>, since: seq<Event>)
    requires forall e <- since :: e.Fragment? || e.RfTimeout?
    ensures var t := After(IDLE, before + [Arm] + since);
            && t.waiting && t.buffer == Payloads(since)
            && (t.timedOut <==> RfTimeout in since)
            && (t.notified <==> RfTimeout in since || exists e <- since :: IsLast(e))
    decreases |since|
  {
    if since == [] {
      assert before + [Arm] + since == before + [Arm];
      OneMoreEvent(IDLE, before, Arm);
    } else {
      var front, last := since[..|since| - 1], since[|since| - 1];
      assert since == front + [last];
      assert before + [Arm] + since == before + [Arm] + front + [last];
      BufferHoldsPayloads(before, front);
      OneMoreEvent(IDLE, before + [Arm] + front, last);
      OneMorePayload(front, last);
    }
  }

  /** A transceive finds the tag lost exactly if its wait has failed, after a time-out, or when the tag is no longer
      active; otherwise, if it wakes because it was signalled, a last fragment has come since the arming, and it
      returns exactly the payloads since then, but nothing for a single byte other than ACK from a type-2 tag, and for
      a Mifare Classic tag what the extension library makes of them.  When the fragments end with the first last one,
      that is the whole response. */
  lemma {:induction false} ResponseIsReassembled(before: seq<Event>, since: seq<Event>, waitOk: bool, active: bool,
                                                 kind: Kind, checked: Option<seq<Byte>>)
    requires forall e <- since :: e.Fragment? || e.RfTimeout?
    requires waitOk ==> After(IDLE, before + [Arm] + since).notified
    ensures var response := Respond(After(IDLE, before + [Arm] + since), waitOk, active, kind, checked);
            && (response.TargetLost? <==> !waitOk || RfTimeout in since || !active)
            && (!response.TargetLost? ==> exists e <- since :: IsLast(e))
            && (!response.TargetLost? && (forall i :: 0 <= i < |since| - 1 ==> !IsLast(since[i])) ==>
                  IsLast(since[|since| - 1]))
            && (!response.TargetLost? && !kind.Classic? ==>
                  response == if Payloads(since) == [] then Nothing
                              else if kind.Type2? && |Payloads(since)| == 1 && Payloads(since)[0] != 0xA then Nothing
                              else Data(Payloads(since)))
            && (!response.TargetLost? && kind.Classic? ==>
                  response == if Payloads(since) == [] || checked.None? || checked.value == [] then Nothing
                              else Data(checked.value))
  {
    BufferHoldsPayloads(before, since);
    if waitOk && RfTimeout !in since {
      var e :| e in since && IsLast(e);
      var i :| 0 <= i < |since| && since[i] == e;
    }
  }

  /** What arrives while nobody waits is dropped; only the end of a call that was answered empties the buffer. */
  lemma {:induction false} LateFragmentsAreDropped(t: Trans, run: seq<Event>)
    requires !t.waiting && forall e <- run :: !e.Arm?
    ensures After(t, run) == t.(buffer := if Disarm(false) in run then [] else t.buffer)
    decreases |run|
  {
    if run == [] {
    } else {
      var front, last := run[..|run| - 1], run[|run| - 1];
      assert run == front + [last];
      LateFragmentsAreDropped(t, front);
    }
  }
}
