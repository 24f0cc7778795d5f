/** Failure diagnosis of a finished ansible-runner process
    (`parseEvents`, `runnerEventMessage`, `extractFailureReason` of
    internal/ansible/ansible.go): the job events of a run are read from its
    artifacts directory and the failed or unreachable tasks among them are
    summarised in one line. */
module AnsibleEvents {
  import opened Outcomes
  import Json
  import opened JobEvent
  import Text

  // ----- Decoding event_data into RunnerEventData (reunmarshal) -----

  /** The JSON kind named in `json: cannot unmarshal <kind> into ...`. */
  function KindName(v: Json.Value): string {
    match v
    case Null => "null"
    case Bool(_) => "bool"
    case Number(_) => "number"
    case Str(_) => "string"
    case Array(_) => "array"
    case Object(_) => "object"
  }

  function TypeError(v: Json.Value, field: string, goType: string): Error {
    Text("json: cannot unmarshal " + KindName(v) + " into Go struct field " + field + " of type " + goType)
  }

  /** A string field: absent or null leaves "", a string is taken, anything
      else is a type error. */
  function StringField(m: map<string, Json.Value>, key: string, field: string): (r: Result<string, Error>)
    ensures key !in m ==> r == Success("")
    ensures key in m && m[key].Null? ==> r == Success("")
    ensures key in m && m[key].Str? ==> r == Success(m[key].s)
    ensures r.Failure? <==> key in m && !m[key].Null? && !m[key].Str?
  {
    if key !in m then Success("")
    else match m[key]
      case Null => Success("")
      case Str(s) => Success(s)
      case v => Failure(TypeError(v, field, "string"))
  }

  /** The `ignore_errors` field: absent or null leaves false. */
  function BoolField(m: map<string, Json.Value>, key: string, field: string): (r: Result<bool, Error>)
    ensures key !in m ==> r == Success(false)
    ensures key in m && m[key].Null? ==> r == Success(false)
    ensures key in m && m[key].Bool? ==> r == Success(m[key].b)
    ensures r.Failure? <==> key in m && !m[key].Null? && !m[key].Bool?
  {
    if key !in m then Success(false)
    else match m[key]
      case Null => Success(false)
      case Bool(b) => Success(b)
      case v => Failure(TypeError(v, field, "bool"))
  }

  /** The `res.msg` string of event data: "" unless `res` is an object
      whose `msg` is a string. */
  function MessageOf(m: map<string, Json.Value>): string {
    if "res" in m && m["res"].Object? && "msg" in m["res"].fields && m["res"].fields["msg"].Str?
    then m["res"].fields["msg"].s
    else ""
  }

  /** The `res` field, an object whose `msg` is a string. */
  function ResultField(m: map<string, Json.Value>): (r: Result<RunnerResult, Error>)
    ensures "res" !in m ==> r == Success(RunnerResult(""))
    ensures r.Success? ==> r.value.msg == MessageOf(m)
  {
    if "res" !in m then Success(RunnerResult(""))
    else match m["res"]
      case Null => Success(RunnerResult(""))
      case Object(fields) =>
        (match StringField(fields, "msg", "runnerResult.res.msg")
         case Success(msg) => Success(RunnerResult(msg))
         case Failure(e) => Failure(e))
      case v => Failure(TypeError(v, "runnerEventData.res", "ansible.runnerResult"))
  }

  /** `reunmarshal(evt.EventData, &evtData)`: the map is marshalled (keys in
      sorted order) and decoded into the record; unknown keys are ignored
      and the first ill-typed field, in key order, is the error. */
  function DecodeRunnerEventData(m: map<string, Json.Value>): (r: Result<RunnerEventData, Error>)
    ensures r.Success? ==> r.value.play == (if "play" in m && m["play"].Str? then m["play"].s else "")
    ensures r.Success? ==> r.value.task == (if "task" in m && m["task"].Str? then m["task"].s else "")
    ensures r.Success? ==> r.value.host == (if "host" in m && m["host"].Str? then m["host"].s else "")
    ensures r.Success? ==> r.value.result.msg == MessageOf(m)
    ensures r.Success? ==> r.value.ignoreErrors == ("ignore_errors" in m && m["ignore_errors"] == Json.Bool(true))
  {
    match StringField(m, "host", "runnerEventData.host")
    case Failure(e) => Failure(e)
    case Success(host) =>
      match BoolField(m, "ignore_errors", "runnerEventData.ignore_errors")
      case Failure(e) => Failure(e)
      case Success(ignore) =>
        match StringField(m, "play", "runnerEventData.play")
        case Failure(e) => Failure(e)
        case Success(play) =>
          match ResultField(m)
          case Failure(e) => Failure(e)
          case Success(res) =>
            match StringField(m, "task", "runnerEventData.task")
            case Failure(e) => Failure(e)
            case Success(task) => Success(RunnerEventData(play, task, host, res, ignore))
  }

  /** An event_data without `ignore_errors` decodes as not ignored. */
  lemma MissingIgnoreErrorsIsNotIgnored(m: map<string, Json.Value>)
    requires "ignore_errors" !in m
    requires DecodeRunnerEventData(m).Success?
    ensures !DecodeRunnerEventData(m).value.ignoreErrors
  {
  }

  // ----- runnerEventMessage -----

  /** The line for one failure event: the reason, the quoted play, task
      and host, and the result message. */
  function FailureLine(reason: string, d: RunnerEventData): (line: string)
    ensures |line| >= |reason| + |d.result.msg| + 31
  {
    reason + " on play " + Text.Quote(d.play) + ", task " + Text.Quote(d.task) +
    ", host " + Text.Quote(d.host) + ": " + d.result.msg
  }

  /** A failure line starts with its reason and ends with the result
      message, so it is never empty. */
  lemma FailureLineFrame(reason: string, d: RunnerEventData)
    ensures var line := FailureLine(reason, d);
      |line| >= |reason| + 9 + |d.result.msg| &&
      line[..|reason| + 9] == reason + " on play " &&
      line[|line| - |d.result.msg|..] == d.result.msg
  {
    var head := reason + " on play ";
    var tail := Text.Quote(d.play) + ", task " + Text.Quote(d.task) + ", host " + Text.Quote(d.host) + ": ";
    assert head + tail + d.result.msg == FailureLine(reason, d);
    assert (head + tail + d.result.msg)[..|head|] == head;
    assert (head + tail + d.result.msg)[|head + tail|..] == d.result.msg;
  }

  /** `runnerEventMessage(evt, reason)`: an undecodable event_data is an
      error naming the event's uuid; an ignored failure gives ""; otherwise
      the reason, the quoted play, task and host, and the result message. */
  function RunnerEventMessage(evt: JobEvent, reason: string): (r: Result<string, Error>)
    ensures r.Failure? <==> DecodeRunnerEventData(evt.eventData).Failure?
    ensures r.Failure? ==> r.error == Wrapped("unmarshaling job event " + evt.uuid + " as runner event",
                                              DecodeRunnerEventData(evt.eventData).error)
    ensures r.Success? ==> (r.value == "" <==> DecodeRunnerEventData(evt.eventData).value.ignoreErrors)
    ensures r.Success? && r.value != "" ==>
      var d := DecodeRunnerEventData(evt.eventData).value;
      |r.value| >= |reason| + 9 + |d.result.msg| &&
      r.value[..|reason| + 9] == reason + " on play " &&
      r.value[|r.value| - |d.result.msg|..] == d.result.msg
  {
    match DecodeRunnerEventData(evt.eventData)
    case Failure(e) => Failure(Wrapped("unmarshaling job event " + evt.uuid + " as runner event", e))
    case Success(d) =>
      if d.ignoreErrors then Success("")
      else FailureLineFrame(reason, d); Success(FailureLine(reason, d))
  }

  // ----- Diagnosis over a list of events -----

  /** What one event adds to the diagnosis: the failure tags produce their
      message ("Failed" or "Unreachable") unless it is empty; every other
      event adds nothing. */
  function Contribution(evt: JobEvent): (r: Result<seq<string>, Error>)
    ensures !IsFailureTag(evt.event) ==> r == Success([])
    ensures r.Success? ==> |r.value| <= 1
  {
    if evt.event == EventTypeRunnerFailed || evt.event == EventTypeRunnerUnreachable then
      var reason := if evt.event == EventTypeRunnerFailed then "Failed" else "Unreachable";
      match RunnerEventMessage(evt, reason)
      case Failure(e) => Failure(e)
      case Success(m) => if m != "" then Success([m]) else Success([])
    else Success([])
  }

  /** Accumulating messages: an error on either side wins (the left one
      first), otherwise the lists are concatenated. */
  function Combine(x: Result<seq<string>, Error>, y: Result<seq<string>, Error>): (r: Result<seq<string>, Error>)
    ensures x.Failure? ==> r == x
    ensures x.Success? && y.Failure? ==> r == y
    ensures x.Success? && y.Success? ==> r == Success(x.value + y.value)
  {
    if x.Failure? then x else if y.Failure? then y else Success(x.value + y.value)
  }

  lemma CombineAssociative(x: Result<seq<string>, Error>, y: Result<seq<string>, Error>, z: Result<seq<string>, Error>)
    ensures Combine(Combine(x, y), z) == Combine(x, Combine(y, z))
  {
    if x.Success? && y.Success? && z.Success? {
      assert x.value + y.value + z.value == x.value + (y.value + z.value);
    }
  }

  lemma CombineNothing(x: Result<seq<string>, Error>)
    ensures Combine(x, Success([])) == x
  {
    if x.Success? {
      assert x.value + [] == x.value;
    }
  }

  /** Accumulates per-event contributions left to right; the first error
      aborts the accumulation. */
  function Collect(cs: seq<Result<seq<string>, Error>>): (r: Result<seq<string>, Error>)
    ensures r.Success? <==> forall i :: 0 <= i < |cs| ==> cs[i].Success?
    ensures r.Failure? ==> r in cs
  {
    if cs == [] then Success([])
    else Combine(Collect(cs[..|cs| - 1]), cs[|cs| - 1])
  }

  lemma CollectSnoc(cs: seq<Result<seq<string>, Error>>, c: Result<seq<string>, Error>)
    ensures Collect(cs + [c]) == Combine(Collect(cs), c)
  {
    assert (cs + [c])[..|cs|] == cs;
  }

  /** Once the first `i` contributions succeed and the next one fails, the
      whole accumulation is that failure. */
  lemma {:induction false} CollectAbortsAt(cs: seq<Result<seq<string>, Error>>, i: nat)
    requires i < |cs|
    requires Collect(cs[..i]).Success?
    requires cs[i].Failure?
    ensures Collect(cs) == cs[i]
    decreases |cs|
  {
    if i == |cs| - 1 {
      assert cs[..|cs| - 1] == cs[..i];
    } else {
      assert cs[..|cs| - 1][..i] == cs[..i];
      CollectAbortsAt(cs[..|cs| - 1], i);
    }
  }

  /** What each event contributes, in order. */
  function Contributions(evts: seq<JobEvent>): seq<Result<seq<string>, Error>> {
    seq(|evts|, i requires 0 <= i < |evts| => Contribution(evts[i]))
  }

  /** The messages collected over `evts` in list order; the first failing
      event aborts with its error, so an error is always some event's. */
  function Messages(evts: seq<JobEvent>): (r: Result<seq<string>, Error>)
    ensures r.Failure? <==> exists i :: 0 <= i < |evts| && Contribution(evts[i]).Failure?
    ensures r.Failure? ==> exists i :: 0 <= i < |evts| && Contribution(evts[i]) == r
  {
    var cs := Contributions(evts);
    assert forall i :: 0 <= i < |evts| ==> cs[i] == Contribution(evts[i]);
    Collect(cs)
  }

  lemma MessagesSnoc(evts: seq<JobEvent>, evt: JobEvent)
    ensures Messages(evts + [evt]) == Combine(Messages(evts), Contribution(evt))
  {
    assert Contributions(evts + [evt]) == Contributions(evts) + [Contribution(evt)];
    CollectSnoc(Contributions(evts), Contribution(evt));
  }

  /** The diagnosis: the messages joined with "; ". */
  function Diagnose(evts: seq<JobEvent>): (r: Result<string, Error>)
    ensures r.Failure? <==> Messages(evts).Failure?
    ensures r.Failure? ==> r.error == Messages(evts).error
    ensures r.Success? && Messages(evts).value == [] ==> r.value == ""
    ensures r.Success? && |Messages(evts).value| == 1 ==> r.value == Messages(evts).value[0]
  {
    match Messages(evts)
    case Failure(e) => Failure(e)
    case Success(ms) => Success(Text.Join(ms, "; "))
  }

  /** The failure-tagged events of a list, in order. */
  function FailureEvents(evts: seq<JobEvent>): (r: seq<JobEvent>)
    ensures |r| <= |evts|
    ensures forall i :: 0 <= i < |r| ==> IsFailureTag(r[i].event)
    ensures forall e :: e in r <==> e in evts && IsFailureTag(e.event)
  {
    if evts == [] then []
    else FailureEvents(evts[..|evts| - 1]) +
         (if IsFailureTag(evts[|evts| - 1].event) then [evts[|evts| - 1]] else [])
  }

  /** The filter keeps the order of the events: the failure events of a
      concatenation are those of its first part, then those of its second. */
  lemma {:induction false} FailureEventsAppend(a: seq<JobEvent>, b: seq<JobEvent>)
    ensures FailureEvents(a + b) == FailureEvents(a) + FailureEvents(b)
    decreases |b|
  {
    if b == [] {
      assert a + b == a;
    } else {
      var init, last := b[..|b| - 1], b[|b| - 1];
      var tail := if IsFailureTag(last.event) then [last] else [];
      FailureEventsAppend(a, init);
      assert (a + b)[..|a + b| - 1] == a + init;
      assert (a + b)[|a + b| - 1] == last;
      assert FailureEvents(a + b) == FailureEvents(a + init) + tail;
      assert FailureEvents(b) == FailureEvents(init) + tail;
      assert FailureEvents(a) + FailureEvents(init) + tail == FailureEvents(a) + (FailureEvents(init) + tail);
    }
  }

  /** Only the `runner_on_failed` and `runner_on_unreachable` events matter:
      dropping all others changes neither the messages nor the error. */
  lemma {:induction false} OnlyFailureEventsMatter(evts: seq<JobEvent>)
    ensures Messages(evts) == Messages(FailureEvents(evts))
  {
    if evts != [] {
      var init, last := evts[..|evts| - 1], evts[|evts| - 1];
      assert evts == init + [last];
      OnlyFailureEventsMatter(init);
      MessagesSnoc(init, last);
      var f := FailureEvents(init);
      if IsFailureTag(last.event) {
        assert FailureEvents(evts) == f + [last];
        MessagesSnoc(f, last);
      } else {
        assert FailureEvents(evts) == f + [];
        assert f + [] == f;
        CombineNothing(Messages(init));
      }
    }
  }

  /** The messages of a concatenation combine those of its parts: the
      messages of the first part come first, and the first error wins. */
  lemma {:induction false} MessagesAppend(a: seq<JobEvent>, b: seq<JobEvent>)
    ensures Messages(a + b) == Combine(Messages(a), Messages(b))
    decreases |b|
  {
    if b == [] {
      assert a + b == a;
      CombineNothing(Messages(a));
    } else {
      var init, last := b[..|b| - 1], b[|b| - 1];
      assert b == init + [last];
      assert a + b == (a + init) + [last];
      MessagesAppend(a, init);
      MessagesSnoc(a + init, last);
      MessagesSnoc(init, last);
      CombineAssociative(Messages(a), Messages(init), Contribution(last));
    }
  }

  /** An ignored failure event contributes nothing. */
  lemma IgnoredEventContributesNothing(evts: seq<JobEvent>, evt: JobEvent)
    requires DecodeRunnerEventData(evt.eventData).Success?
    requires DecodeRunnerEventData(evt.eventData).value.ignoreErrors
    ensures Messages(evts + [evt]) == Messages(evts)
  {
    MessagesSnoc(evts, evt);
    CombineNothing(Messages(evts));
  }

  /** Without failure events the diagnosis is the empty string. */
  lemma {:induction false} NoFailureEventsNoReason(evts: seq<JobEvent>)
    requires forall i :: 0 <= i < |evts| ==> !IsFailureTag(evts[i].event)
    ensures Messages(evts) == Success([])
    ensures Diagnose(evts) == Success("")
  {
    if evts != [] {
      var init, last := evts[..|evts| - 1], evts[|evts| - 1];
      assert evts == init + [last];
      NoFailureEventsNoReason(init);
      MessagesSnoc(init, last);
      CombineNothing(Messages(init));
    }
  }

  /** The diagnosis fails iff some failure event's event_data cannot be
      decoded; other events are never decoded. */
  lemma {:induction false} DiagnosisFailsIff(evts: seq<JobEvent>)
    ensures Messages(evts).Failure? <==>
      exists i :: 0 <= i < |evts| && IsFailureTag(evts[i].event) && DecodeRunnerEventData(evts[i].eventData).Failure?
  {
    if evts != [] {
      var init, last := evts[..|evts| - 1], evts[|evts| - 1];
      assert evts == init + [last];
      MessagesSnoc(init, last);
      DiagnosisFailsIff(init);
      if Messages(init).Failure? {
        var i :| 0 <= i < |init| && IsFailureTag(init[i].event) && DecodeRunnerEventData(init[i].eventData).Failure?;
        assert evts[i] == init[i];
      } else if IsFailureTag(last.event) && DecodeRunnerEventData(last.eventData).Failure? {
        assert evts[|evts| - 1] == last;
      } else {
        forall i | 0 <= i < |evts| - 1
          ensures !(IsFailureTag(evts[i].event) && DecodeRunnerEventData(evts[i].eventData).Failure?)
        {
          assert evts[i] == init[i];
        }
      }
    }
  }

  /** Two event lists that agree on every event's type and data give the
      same messages: `stdout` never enters the diagnosis, and `uuid` only
      enters the text of a decoding error. */
  lemma {:induction false} OnlyTypeAndDataMatter(a: seq<JobEvent>, b: seq<JobEvent>)
    requires |a| == |b|
    requires forall i :: 0 <= i < |a| ==> a[i].event == b[i].event && a[i].eventData == b[i].eventData
    ensures Messages(a).Success? <==> Messages(b).Success?
    ensures Messages(a).Success? ==> Messages(a) == Messages(b)
  {
    if a != [] {
      var n := |a| - 1;
      assert a == a[..n] + [a[n]] && b == b[..n] + [b[n]];
      OnlyTypeAndDataMatter(a[..n], b[..n]);
      MessagesSnoc(a[..n], a[n]);
      MessagesSnoc(b[..n], b[n]);
      ContributionOnlyTypeAndData(a[n], b[n]);
    }
  }

  /** One event's contribution, but for the text of a decoding error,
      depends only on its type and data. */
  lemma ContributionOnlyTypeAndData(x: JobEvent, y: JobEvent)
    requires x.event == y.event && x.eventData == y.eventData
    ensures Contribution(x).Success? <==> Contribution(y).Success?
    ensures Contribution(x).Success? ==> Contribution(x) == Contribution(y)
  {
  }

  // ----- parseEvents -----

  /** What reading and decoding one file of the events directory gave. */
  datatype FileRead = Unreadable(readErr: Error) | Unparseable(parseErr: Error) | Parsed(evt: JobEvent)

  datatype EventFile = EventFile(name: string, read: FileRead)

  /** The events of the files that could be read and decoded, in directory
      order; the others are skipped. */
  function ParsedEvents(files: seq<EventFile>): (r: seq<JobEvent>)
    ensures |r| <= |files|
    ensures forall e :: e in r <==> exists i :: 0 <= i < |files| && files[i].read == Parsed(e)
  {
    if files == [] then []
    else ParsedEvents(files[..|files| - 1]) +
         (if files[|files| - 1].read.Parsed? then [files[|files| - 1].read.evt] else [])
  }

  /** A skipped file changes nothing, wherever it stands. */
  lemma {:induction false} ParsedEventsAppend(a: seq<EventFile>, b: seq<EventFile>)
    ensures ParsedEvents(a + b) == ParsedEvents(a) + ParsedEvents(b)
    decreases |b|
  {
    if b == [] {
      assert a + b == a;
    } else {
      var init, last := b[..|b| - 1], b[|b| - 1];
      var tail := if last.read.Parsed? then [last.read.evt] else [];
      ParsedEventsAppend(a, init);
      assert (a + b)[..|a + b| - 1] == a + init;
      assert (a + b)[|a + b| - 1] == last;
      assert ParsedEvents(a + b) == ParsedEvents(a + init) + tail;
      assert ParsedEvents(b) == ParsedEvents(init) + tail;
      assert ParsedEvents(a) + ParsedEvents(init) + tail == ParsedEvents(a) + (ParsedEvents(init) + tail);
    }
  }

  /** `parseEvents` over a directory listing that could be read. */
  method ParseEvents(files: seq<EventFile>) returns (evts: seq<JobEvent>)
    ensures evts == ParsedEvents(files)
  {
    evts := [];
    for i := 0 to |files|
      invariant evts == ParsedEvents(files[..i])
    {
      assert files[..i + 1][..i] == files[..i];
      match files[i].read {
        case Unreadable(_) =>
        case Unparseable(_) =>
        case Parsed(evt) => evts := evts + [evt];
      }
    }
    assert files[..|files|] == files;
  }

  const ErrParsingEvents: string := "parsing job events"
  const ErrReadingEventsDir: string := "reading job events directory "

  /** The error of an unreadable events directory, as `extractFailureReason`
      returns it. */
  function ReadDirError(dir: string, e: Error): (r: Error)
    ensures r.Is(e)
    ensures r.Message() == ErrParsingEvents + ": " + ErrReadingEventsDir + Text.Quote(dir) + ": " + e.Message()
  {
    var inner := Wrapped(ErrReadingEventsDir + Text.Quote(dir), e);
    assert inner.Is(e);
    assert inner.Message() == ErrReadingEventsDir + Text.Quote(dir) + ": " + e.Message();
    Wrapped(ErrParsingEvents, inner)
  }

  /** The diagnosis of the events directory `dir`, given what listing it
      gave. */
  function FailureReason(dir: string, listing: Result<seq<EventFile>, Error>): (r: Result<string, Error>)
    ensures listing.Failure? ==> r.Failure? && r.error.Is(listing.error)
  {
    match listing
    case Failure(e) => Failure(ReadDirError(dir, e))
    case Success(files) => Diagnose(ParsedEvents(files))
  }

  /** `extractFailureReason`: parse the events, then collect the message of
      every failure event, stopping at the first that cannot be decoded. */
  method ExtractFailureReason(dir: string, listing: Result<seq<EventFile>, Error>) returns (r: Result<string, Error>)
    ensures r == FailureReason(dir, listing)
  {
    if listing.Failure? {
      return Failure(ReadDirError(dir, listing.error));
    }
    var evts := ParseEvents(listing.value);
    var msgs: seq<string> := [];
    for i := 0 to |evts|
      invariant Messages(evts[..i]) == Success(msgs)
    {
      var evt := evts[i];
      assert Messages(evts[..i + 1]) == Combine(Success(msgs), Contribution(evt)) by {
        assert evts[..i + 1] == evts[..i] + [evt];
        MessagesSnoc(evts[..i], evt);
      }
      var reason := "";
      if evt.event == EventTypeRunnerFailed {
        reason := "Failed";
      } else if evt.event == EventTypeRunnerUnreachable {
        reason := "Unreachable";
      }
      if reason != "" {
        var m := RunnerEventMessage(evt, reason);
        if m.Failure? {
          DiagnosisAbortsAt(evts, i);
          return Failure(m.error);
        }
        if m.value != "" {
          msgs := msgs + [m.value];
        } else {
          assert msgs + [] == msgs;
        }
      } else {
        assert msgs + [] == msgs;
      }
    }
    assert evts[..|evts|] == evts;
    r := Success(Text.Join(msgs, "; "));
  }

  /** Once a prefix ends in a failing event, the whole list fails with that
      event's error. */
  lemma DiagnosisAbortsAt(evts: seq<JobEvent>, i: nat)
    requires i < |evts|
    requires Messages(evts[..i]).Success?
    requires Contribution(evts[i]).Failure?
    ensures Messages(evts) == Failure(Contribution(evts[i]).error)
  {
    var cs := Contributions(evts);
    assert cs[..i] == Contributions(evts[..i]);
    CollectAbortsAt(cs, i);
  }
}
