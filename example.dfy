/** The demo app's server-sent-events handling (ViewController.swift): two
    fields, `isDismiss` and `responseString`, updated by the connection-status
    and raw-frame callbacks. The HUD and the text view are ghost state. */
module Example {
  import opened Wrappers
  import opened JsonValue
  import opened Constant
  import opened Extension

  datatype ConnectionStatus = Connecting | Open | Closed

  /** One raw frame: the HTTP status of the stream and the frame's bytes. */
  datatype RawInformation = RawInformation(statusCode: int, data: Bytes)

  datatype SseState = SseState(isDismiss: bool, responseString: string)

  /** `sseStatusAction`: a failure or `open` leaves the HUD dismissed;
      a failure or `closed` clears the text. */
  function StatusStep(s: SseState, result: Result<ConnectionStatus, string>): (r: SseState)
    ensures r.isDismiss <==> result.Failure? || result.value == Open
    ensures r.responseString == if result.Failure? || result.value == Closed then "" else s.responseString
  {
    match result
    case Failure(_) => SseState(true, "")
    case Success(Connecting) => s.(isDismiss := false)
    case Success(Open) => if !s.isDismiss then s.(isDismiss := true) else s
    case Success(Closed) => SseState(false, "")
  }

  /** Whether the status callback dismisses the HUD. */
  predicate StatusDismisses(s: SseState, result: Result<ConnectionStatus, string>)
  {
    result.Failure? || (result.value == Open && !s.isDismiss)
  }

  /** `sseRawString`: a frame with a status other than 200 replaces the text by
      the body (or the status number when the body is not text); a 200 frame
      whose object has a string `response` appends it; nothing else changes. */
  function RawStep(s: SseState, frame: RawInformation, codec: Codec): (r: SseState)
    ensures r.isDismiss == s.isDismiss
    ensures frame.statusCode != 200 && codec.decodeText(frame.data).Some? ==>
              r.responseString == codec.decodeText(frame.data).value
    ensures frame.statusCode != 200 && codec.decodeText(frame.data).None? ==>
              r.responseString == DecimalString(frame.statusCode)
    ensures forall p :: CarriesPiece(frame, codec, p) ==> r == s.(responseString := s.responseString + p)
    ensures frame.statusCode == 200 && (forall p :: !CarriesPiece(frame, codec, p)) ==> r == s
  {
    if frame.statusCode != 200 then
      s.(responseString := if codec.decodeText(frame.data).Some? then codec.decodeText(frame.data).value
                           else DecimalString(frame.statusCode))
    else
      var dict := if codec.parseData(frame.data).None? then None else AsObject(codec.parseData(frame.data).value);
      var response := if dict.None? then None else StringMember(dict.value, "response");
      if response.None? then
        assert forall p :: !CarriesPiece(frame, codec, p);
        s
      else
        assert CarriesPiece(frame, codec, response.value);
        s.(responseString := s.responseString + response.value)
  }

  /** A run of status callbacks: the final state ... */
  function StatusRun(s: SseState, events: seq<Result<ConnectionStatus, string>>): SseState
    decreases |events|
  {
    if events == [] then s else StatusRun(StatusStep(s, events[0]), events[1..])
  }

  /** ... and how many times it dismisses the HUD. */
  function StatusRunDismissals(s: SseState, events: seq<Result<ConnectionStatus, string>>): nat
    decreases |events|
  {
    if events == [] then 0
    else (if StatusDismisses(s, events[0]) then 1 else 0) + StatusRunDismissals(StatusStep(s, events[0]), events[1..])
  }

  function RawRun(s: SseState, frames: seq<RawInformation>, codec: Codec): SseState
    decreases |frames|
  {
    if frames == [] then s else RawRun(RawStep(s, frames[0], codec), frames[1..], codec)
  }

  /** A frame carrying `{"response": piece}` with status 200. */
  predicate CarriesPiece(frame: RawInformation, codec: Codec, piece: string)
  {
    frame.statusCode == 200 && codec.parseData(frame.data).Some? && codec.parseData(frame.data).value.JObject?
    && "response" in codec.parseData(frame.data).value.members
    && codec.parseData(frame.data).value.members["response"] == JString(piece)
  }

  /** The piece a frame of status 200 appends, if any. */
  function FramePiece(frame: RawInformation, codec: Codec): (r: Option<string>)
    ensures r.Some? ==> CarriesPiece(frame, codec, r.value)
    ensures forall p :: CarriesPiece(frame, codec, p) ==> r == Some(p)
  {
    if frame.statusCode != 200 || codec.parseData(frame.data).None? then None
    else match AsObject(codec.parseData(frame.data).value)
      case None => None
      case Some(dict) => StringMember(dict, "response")
  }

  /** However many `open` callbacks arrive with no `connecting`, `closed` or
      failure between them, the HUD is dismissed at most once, and not at all
      when it already was. */
  lemma {:induction false} OpenDismissesAtMostOnce(s: SseState, events: seq<Result<ConnectionStatus, string>>)
    requires forall i :: 0 <= i < |events| ==> events[i] == Success(Open)
    ensures StatusRunDismissals(s, events) <= 1
    ensures s.isDismiss ==> StatusRunDismissals(s, events) == 0
    ensures events != [] ==> StatusRun(s, events).isDismiss
    ensures StatusRun(s, events).responseString == s.responseString
    decreases |events|
  {
    if events != [] {
      var next := StatusStep(s, events[0]);
      assert next.isDismiss;
      OpenDismissesAtMostOnce(next, events[1..]);
    }
  }

  /** `connecting` re-arms the dismissal: the next `open` dismisses again. */
  lemma ConnectingRearms(s: SseState)
    ensures StatusRunDismissals(s, [Success(Connecting), Success(Open)]) == 1
    ensures StatusRun(s, [Success(Connecting), Success(Open)]).isDismiss
  {
    var events: seq<Result<ConnectionStatus, string>> := [Success(Connecting), Success(Open)];
    assert events[1..] == [Success(Open)];
  }

  /** Status callbacks never change the text except to clear it. */
  lemma {:induction false} StatusKeepsOrClearsText(s: SseState, events: seq<Result<ConnectionStatus, string>>)
    ensures StatusRun(s, events).responseString == s.responseString || StatusRun(s, events).responseString == ""
    decreases |events|
  {
    if events != [] {
      var next := StatusStep(s, events[0]);
      StatusKeepsOrClearsText(next, events[1..]);
    }
  }

  /** Frames of status 200 that each carry a piece append the pieces in order;
      raw frames never touch the dismissal flag. */
  lemma {:induction false} FramesAccumulate(s: SseState, frames: seq<RawInformation>, codec: Codec,
                                            pieces: seq<string>)
    requires |frames| == |pieces|
    requires forall i :: 0 <= i < |frames| ==> CarriesPiece(frames[i], codec, pieces[i])
    ensures RawRun(s, frames, codec).responseString == s.responseString + Join(pieces, "")
    ensures RawRun(s, frames, codec).isDismiss == s.isDismiss
    decreases |frames|
  {
    if frames == [] {
      assert s.responseString + Join(pieces, "") == s.responseString;
    } else {
      var next := RawStep(s, frames[0], codec);
      assert CarriesPiece(frames[0], codec, pieces[0]);
      assert next.responseString == s.responseString + pieces[0];
      FramesAccumulate(next, frames[1..], codec, pieces[1..]);
      if |pieces| == 1 {
        assert Join(pieces, "") == pieces[0];
        assert Join(pieces[1..], "") == "";
      } else {
        assert Join(pieces, "") == pieces[0] + "" + Join(pieces[1..], "");
      }
    }
  }

  /** A stream of 200 frames, some carrying a piece and some not: the text
      grows by exactly the carried pieces, in order, and the flag stays. */
  lemma {:induction false} StreamAccumulates(s: SseState, frames: seq<RawInformation>, codec: Codec)
    requires forall i :: 0 <= i < |frames| ==> frames[i].statusCode == 200
    ensures RawRun(s, frames, codec).responseString
         == s.responseString + Join(CompactMap(frames, (f: RawInformation) => FramePiece(f, codec)), "")
    ensures RawRun(s, frames, codec).isDismiss == s.isDismiss
    decreases |frames|
  {
    var piece := (f: RawInformation) => FramePiece(f, codec);
    if frames != [] {
      var next := RawStep(s, frames[0], codec);
      StreamAccumulates(next, frames[1..], codec);
      var rest := CompactMap(frames[1..], piece);
      if piece(frames[0]).Some? {
        var p := piece(frames[0]).value;
        assert next.responseString == s.responseString + p;
        assert CompactMap(frames, piece) == [p] + rest;
        if rest == [] {
          assert Join([p] + rest, "") == p;
        } else {
          assert Join([p] + rest, "") == p + "" + Join(rest, "");
        }
      } else {
        assert next == s;
        assert CompactMap(frames, piece) == rest;
      }
    }
  }

  /** The view controller's state and, as ghost fields, what the screen shows:
      the text view, the number of HUD dismissals, and how many of them `open`
      made since the last `connecting` or `closed`. */
  class ViewController {
    var isDismiss: bool
    var responseString: string
    ghost var displayedText: string
    ghost var hudDismissals: nat
    ghost var openDismissals: nat

    /** `open` has dismissed the HUD at most once since the last re-arm, and
        if it has, the flag records it. */
    ghost predicate Valid()
      reads this
    {
      openDismissals <= 1 && (openDismissals == 1 ==> isDismiss)
    }

    function State(): SseState
      reads this
    {
      SseState(isDismiss, responseString)
    }

    constructor()
      ensures Valid()
      ensures !isDismiss && responseString == "" && displayedText == ""
      ensures hudDismissals == 0 && openDismissals == 0
    {
      isDismiss := false;
      responseString := "";
      displayedText := "";
      hudDismissals := 0;
      openDismissals := 0;
    }

    /** `sseStatusAction(eventSource:result:)` */
    method SseStatusAction(result: Result<ConnectionStatus, string>)
      requires Valid()
      modifies this
      ensures Valid()
      ensures State() == StatusStep(old(State()), result)
      ensures hudDismissals == old(hudDismissals) + if StatusDismisses(old(State()), result) then 1 else 0
      ensures displayedText == if result.Failure? then result.error else old(displayedText)
      ensures openDismissals == if result.Success? && result.value != Open then 0
                                else if StatusDismisses(old(State()), result) && result.Success? then old(openDismissals) + 1
                                else old(openDismissals)
    {
      match result {
        case Failure(description) =>
          hudDismissals := hudDismissals + 1;
          displayedText := description;
          isDismiss := true;
          responseString := "";
        case Success(status) =>
          match status {
            case Connecting =>
              isDismiss := false;
              openDismissals := 0;
            case Open =>
              if !isDismiss {
                hudDismissals := hudDismissals + 1;
                openDismissals := openDismissals + 1;
                isDismiss := true;
              }
            case Closed =>
              responseString := "";
              isDismiss := false;
              openDismissals := 0;
          }
      }
    }

    /** `sseRawString(eventSource:rawInformation:)`; the deferred block shows
        the text after every frame. */
    method SseRawString(frame: RawInformation, codec: Codec)
      requires Valid()
      modifies this
      ensures Valid()
      ensures State() == RawStep(old(State()), frame, codec)
      ensures displayedText == responseString
      ensures hudDismissals == old(hudDismissals) && openDismissals == old(openDismissals)
    {
      if frame.statusCode != 200 {
        var text := codec.decodeText(frame.data);
        responseString := if text.Some? then text.value else DecimalString(frame.statusCode);
        displayedText := responseString;
        return;
      }
      var json := codec.parseData(frame.data);
      if json.Some? && json.value.JObject? && "response" in json.value.members
         && json.value.members["response"].JString? {
        responseString := responseString + json.value.members["response"].s;
      }
      displayedText := responseString;
    }

    /** `serverSentEventsRawData(_:result:)`: a failed frame is shown as is. */
    method ServerSentEventsRawData(result: Result<RawInformation, string>, codec: Codec)
      requires Valid()
      modifies this
      ensures Valid()
      ensures result.Failure? ==> State() == old(State()) && displayedText == result.error
      ensures result.Success? ==> State() == RawStep(old(State()), result.value, codec) && displayedText == responseString
      ensures hudDismissals == old(hudDismissals) && openDismissals == old(openDismissals)
    {
      match result {
        case Failure(description) => displayedText := description;
        case Success(frame) => SseRawString(frame, codec);
      }
    }
  }
}
