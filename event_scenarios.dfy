/** The event sequences of internal/ansible/ansible_test.go and the
    diagnosis each one gets. */
module EventScenarios {
  import opened Outcomes
  import Json
  import opened JobEvent
  import opened AnsibleEvents
  import Text

  const PlaybookStart: JobEvent :=
    JobEvent("63a52ed5-a403-4512-a430-c95f62fa3424", "", "playbook_on_start",
             map["playbook" := Json.Str("playbook.yml")])

  const RunnerFailed: JobEvent :=
    JobEvent("7097758b-1109-4fd9-af59-f545633794dd", "", "runner_on_failed",
             map["play" := Json.Str("test"), "task" := Json.Str("file"), "host" := Json.Str("testhost"),
                 "res" := Json.Object(map["msg" := Json.Str("fake error")])])

  const RunnerUnreachable: JobEvent :=
    JobEvent("ded6289b-e557-48c1-88e1-88eb630aec21", "", "runner_on_unreachable",
             map["play" := Json.Str("test"), "task" := Json.Str("Gathering Facts"), "host" := Json.Str("testhost"),
                 "res" := Json.Object(map["msg" := Json.Str("Failed to connect to the host via ssh")])])

  lemma NoFailureScenarios()
    ensures Diagnose([]) == Success("")
    ensures Diagnose([PlaybookStart]) == Success("")
  {
    NoFailureEventsNoReason([PlaybookStart]);
  }

  const FailedLine: string := "Failed on play \"test\", task \"file\", host \"testhost\": fake error"

  const UnreachableLine: string :=
    "Unreachable on play \"test\", task \"Gathering Facts\", host \"testhost\": "
    + "Failed to connect to the host via ssh"

  /** A failure-tagged event that decodes and is not ignored contributes
      exactly its failure line. */
  lemma DecodedContribution(evt: JobEvent, d: RunnerEventData)
    requires IsFailureTag(evt.event)
    requires DecodeRunnerEventData(evt.eventData) == Success(d)
    requires !d.ignoreErrors
    ensures Contribution(evt) == Success([FailureLine(if evt.event == EventTypeRunnerFailed then "Failed" else "Unreachable", d)])
  {
  }

  /** The expected failed line, assembled piece by piece. */
  lemma FailedLineLiteral()
    ensures "Failed" + " on play " + ("\"" + "test" + "\"") + ", task " + ("\"" + "file" + "\"") + ", host " + ("\"" + "testhost" + "\"") + ": " + "fake error" == FailedLine
  {
    FailedLinePlay();
    FailedLineTask();
    FailedLineHost();
    FailedLineMessage();
  }

  lemma FailedLinePlay()
    ensures "Failed" + " on play " + ("\"" + "test" + "\"") == "Failed on play \"test\""
  {
  }

  lemma FailedLineTask()
    ensures "Failed on play \"test\"" + ", task " + ("\"" + "file" + "\"") == "Failed on play \"test\", task \"file\""
  {
  }

  lemma FailedLineHost()
    ensures "Failed on play \"test\", task \"file\"" + ", host " + ("\"" + "testhost" + "\"")
         == "Failed on play \"test\", task \"file\", host \"testhost\""
  {
  }

  lemma FailedLineMessage()
    ensures "Failed on play \"test\", task \"file\", host \"testhost\"" + ": " + "fake error" == FailedLine
  {
  }

  lemma FailedLineText()
    ensures FailureLine("Failed", RunnerEventData("test", "file", "testhost", RunnerResult("fake error"), false)) == FailedLine
  {
    FieldsQuoted();
    LineWithQuotes("Failed", RunnerEventData("test", "file", "testhost", RunnerResult("fake error"), false),
                   "\"" + "test" + "\"", "\"" + "file" + "\"", "\"" + "testhost" + "\"");
    FailedLineLiteral();
  }

  /** Quoting a field that needs no escape just adds the quotes. */
  lemma FieldsQuoted()
    ensures Text.Quote("test") == "\"" + "test" + "\""
    ensures Text.Quote("file") == "\"" + "file" + "\""
    ensures Text.Quote("testhost") == "\"" + "testhost" + "\""
  {
    FieldsPlain();
    Text.QuotePlain("test");
    Text.QuotePlain("file");
    Text.QuotePlain("testhost");
  }

  /** The test's fields hold nothing `%q` escapes. */
  lemma FieldsPlain()
    ensures Text.Plain("test") && Text.Plain("file") && Text.Plain("testhost") && Text.Plain("Gathering Facts")
  {
  }

  lemma GatheringFactsQuoted()
    ensures Text.Quote("Gathering Facts") == "\"" + "Gathering Facts" + "\""
  {
    FieldsPlain();
    Text.QuotePlain("Gathering Facts");
  }

  /** A failure line with its three quoted fields replaced by equal
      strings. */
  lemma LineWithQuotes(reason: string, d: RunnerEventData, q1: string, q2: string, q3: string)
    requires Text.Quote(d.play) == q1 && Text.Quote(d.task) == q2 && Text.Quote(d.host) == q3
    ensures FailureLine(reason, d) == reason + " on play " + q1 + ", task " + q2 + ", host " + q3 + ": " + d.result.msg
  {
  }

  /** The expected unreachable line, assembled piece by piece. */
  lemma UnreachableLineLiteral()
    ensures "Unreachable" + " on play " + ("\"" + "test" + "\"") + ", task " + ("\"" + "Gathering Facts" + "\"") + ", host " + ("\"" + "testhost" + "\"")
            + ": " + "Failed to connect to the host via ssh" == UnreachableLine
  {
    UnreachableLinePlay();
    UnreachableLineTask();
    UnreachableLineHost();
  }

  lemma UnreachableLinePlay()
    ensures "Unreachable" + " on play " + ("\"" + "test" + "\"") == "Unreachable on play \"test\""
  {
  }

  lemma UnreachableLineTask()
    ensures "Unreachable on play \"test\"" + ", task " + ("\"" + "Gathering Facts" + "\"")
         == "Unreachable on play \"test\", task \"Gathering Facts\""
  {
  }

  lemma UnreachableLineHost()
    ensures "Unreachable on play \"test\", task \"Gathering Facts\"" + ", host " + ("\"" + "testhost" + "\"") + ": "
         == "Unreachable on play \"test\", task \"Gathering Facts\", host \"testhost\": "
  {
  }

  lemma UnreachableLineText()
    ensures FailureLine("Unreachable", RunnerEventData("test", "Gathering Facts", "testhost",
              RunnerResult("Failed to connect to the host via ssh"), false)) == UnreachableLine
  {
    FieldsQuoted();
    GatheringFactsQuoted();
    LineWithQuotes("Unreachable", RunnerEventData("test", "Gathering Facts", "testhost",
                     RunnerResult("Failed to connect to the host via ssh"), false),
                   "\"" + "test" + "\"", "\"" + "Gathering Facts" + "\"", "\"" + "testhost" + "\"");
    UnreachableLineLiteral();
  }

  lemma FailedContribution()
    ensures Contribution(RunnerFailed) == Success([FailedLine])
  {
    var d := RunnerEventData("test", "file", "testhost", RunnerResult("fake error"), false);
    assert DecodeRunnerEventData(RunnerFailed.eventData) == Success(d);
    DecodedContribution(RunnerFailed, d);
    FailedLineText();
  }

  lemma UnreachableContribution()
    ensures Contribution(RunnerUnreachable) == Success([UnreachableLine])
  {
    var d := RunnerEventData("test", "Gathering Facts", "testhost", RunnerResult("Failed to connect to the host via ssh"), false);
    assert DecodeRunnerEventData(RunnerUnreachable.eventData) == Success(d);
    DecodedContribution(RunnerUnreachable, d);
    UnreachableLineText();
  }

  /** An event that is not a failure followed by one that contributes a
      single line gives exactly that line. */
  lemma QuietThenOneLine(quiet: JobEvent, evt: JobEvent, line: string)
    requires !IsFailureTag(quiet.event)
    requires Contribution(evt) == Success([line])
    ensures Messages([quiet, evt]) == Success([line])
  {
    NoFailureEventsNoReason([quiet]);
    MessagesSnoc([quiet], evt);
    assert [quiet] + [evt] == [quiet, evt];
    var none: seq<string> := [];
    assert none + [line] == [line];
    assert Combine(Success(none), Success([line])) == Success([line]);
  }

  /** A playbook start followed by one failed task, as in the
      "FailedEvent" case. */
  lemma FailedScenario()
    ensures Diagnose([PlaybookStart, RunnerFailed]) == Success(FailedLine)
  {
    FailedMessages();
  }

  lemma FailedMessages()
    ensures Messages([PlaybookStart, RunnerFailed]) == Success([FailedLine])
  {
    FailedContribution();
    QuietThenOneLine(PlaybookStart, RunnerFailed, FailedLine);
  }

  /** A playbook start followed by one unreachable host, as in the
      "UnreachableEvent" case. */
  lemma UnreachableScenario()
    ensures Diagnose([PlaybookStart, RunnerUnreachable]) == Success(UnreachableLine)
  {
    UnreachableMessages();
  }

  lemma UnreachableMessages()
    ensures Messages([PlaybookStart, RunnerUnreachable]) == Success([UnreachableLine])
  {
    UnreachableContribution();
    QuietThenOneLine(PlaybookStart, RunnerUnreachable, UnreachableLine);
  }

  /** The same failure with `ignore_errors: true` yields no text. */
  lemma IgnoredScenario()
    ensures Diagnose([RunnerFailed.(eventData := RunnerFailed.eventData["ignore_errors" := Json.Bool(true)])]) == Success("")
  {
    var evt := RunnerFailed.(eventData := RunnerFailed.eventData["ignore_errors" := Json.Bool(true)]);
    assert DecodeRunnerEventData(evt.eventData).Success?;
    IgnoredEventContributesNothing([], evt);
    assert [] + [evt] == [evt];
  }
}
