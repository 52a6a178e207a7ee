/** The guided interview of `src/TunerApp.jsx` (`TunerChatbotComponent`):
    a linear sequence of questions that fills in a task summary, one answer
    per stage, ending either at the upload prompt or at the summary.

    The component answers after a 700 ms timer and posts the summary message
    after a further 500 ms; both run to completion before the next answer,
    so a submission is modelled as one step. */
module TunerApp {
  import opened Strings
  import opened Chat

  /** The `stage` string of the component. */
  datatype Stage = TaskDescription | RobotType | Environment | Constraints | Media | Upload | Summary

  /** The position of a stage along the interview; the two final stages
      share the last position. */
  function Rank(stage: Stage): nat {
    match stage
    case TaskDescription => 0
    case RobotType => 1
    case Environment => 2
    case Constraints => 3
    case Media => 4
    case Upload => 5
    case Summary => 5
  }

  datatype TaskSummary = TaskSummary(description: string, robotType: string, environment: string, constraints: seq<string>)

  /** A chat bubble; `isSummary` marks the message of type `summary`. */
  datatype Message = Message(id: int, text: string, sender: Sender, isSummary: bool)

  const Greeting: string := "Hi there! I'm your Tuner assistant. I'll help you create instructions for your robot. What task would you like to automate?"
  const AskRobotType: string := "Great! What type of robot will be performing this task? (e.g., arm manipulator, mobile robot, etc.)"
  const AskEnvironment: string := "In what environment will this task take place? (e.g., kitchen, warehouse, garden)"
  const AskConstraints: string := "Are there any specific constraints or safety concerns I should know about?"
  const AskMedia: string := "Would you like to upload any reference images or videos to help train the robot? (yes/no)"
  const ToUpload: string := "Great! Click the upload button below to add reference materials."
  const ToSummary: string := "Thanks for providing all this information! I've summarized your task below. You can review and make changes, or proceed to fine-tune your robot."
  const NotUnderstood: string := "I didn't understand that. Could you please try again?"

  /** The outcome of `processUserInput` for one answer. */
  datatype Transition = Transition(stage: Stage, summary: TaskSummary, reply: string)

  /** Whether an answer at the media question asks for an upload. */
  predicate WantsUpload(answer: string) {
    Contains(Lower(answer), "yes")
  }

  /** `processUserInput`: the first four stages store the answer and move to
      the next question (constraints are appended); the media stage branches
      on "yes"; the final stages do not understand anything. */
  function Process(stage: Stage, summary: TaskSummary, answer: string): (t: Transition)
    ensures Rank(t.stage) == if Rank(stage) < 5 then Rank(stage) + 1 else Rank(stage)
    ensures stage == TaskDescription ==>
      t.stage == RobotType && t.summary == summary.(description := answer) && t.reply == AskRobotType
    ensures stage == RobotType ==>
      t.stage == Environment && t.summary == summary.(robotType := answer) && t.reply == AskEnvironment
    ensures stage == Environment ==>
      t.stage == Constraints && t.summary == summary.(environment := answer) && t.reply == AskConstraints
    ensures stage == Constraints ==>
      t.stage == Media && t.summary == summary.(constraints := summary.constraints + [answer]) && t.reply == AskMedia
    ensures stage == Media ==> t.summary == summary
    ensures stage == Media && WantsUpload(answer) ==> t.stage == Upload && t.reply == ToUpload
    ensures stage == Media && !WantsUpload(answer) ==> t.stage == Summary && t.reply == ToSummary
    ensures (stage == Upload || stage == Summary) ==> t == Transition(stage, summary, NotUnderstood)
  {
    match stage
    case TaskDescription => Transition(RobotType, summary.(description := answer), AskRobotType)
    case RobotType => Transition(Environment, summary.(robotType := answer), AskEnvironment)
    case Environment => Transition(Constraints, summary.(environment := answer), AskConstraints)
    case Constraints => Transition(Media, summary.(constraints := summary.constraints + [answer]), AskMedia)
    case Media =>
      if WantsUpload(answer) then Transition(Upload, summary, ToUpload)
      else Transition(Summary, summary, ToSummary)
    case _ => Transition(stage, summary, NotUnderstood)
  }

  /** Answers never move the interview backwards, and the constraints
      collected so far are kept. */
  lemma ProcessMonotone(stage: Stage, summary: TaskSummary, answer: string)
    ensures Rank(Process(stage, summary, answer).stage) >= Rank(stage)
    ensures summary.constraints <= Process(stage, summary, answer).summary.constraints
  {
  }

  /** The line break and indentation between the lines of the summary
      message. */
  const SummaryBreak: string := "\n          "

  /** The summary message text: a heading, then one line per field with the
      field verbatim, constraints joined by ", ". */
  function SummaryText(summary: TaskSummary): (text: string)
    ensures Contains(text, "**Task Summary:**")
    ensures Contains(text, "- **Description:** " + summary.description)
    ensures Contains(text, "- **Robot Type:** " + summary.robotType)
    ensures Contains(text, "- **Environment:** " + summary.environment)
    ensures Contains(text, "- **Constraints:** " + Join(summary.constraints, ", "))
  {
    var lines := ["**Task Summary:**",
                  "- **Description:** " + summary.description,
                  "- **Robot Type:** " + summary.robotType,
                  "- **Environment:** " + summary.environment,
                  "- **Constraints:** " + Join(summary.constraints, ", ")];
    var body := Join(lines, SummaryBreak);
    assert forall i :: 0 <= i < |lines| ==> Contains(SummaryBreak + body + "\n        ", lines[i]) by {
      forall i | 0 <= i < |lines| ensures Contains(SummaryBreak + body + "\n        ", lines[i]) {
        JoinContainsParts(lines, SummaryBreak, i);
        ContainsAfter(SummaryBreak, body, lines[i]);
        ContainsBefore(SummaryBreak + body, "\n        ", lines[i]);
      }
    }
    var text := SummaryBreak + body + "\n        ";
    assert Contains(text, lines[0]) && Contains(text, lines[1]) && Contains(text, lines[2])
        && Contains(text, lines[3]) && Contains(text, lines[4]);
    text
  }

  /** The text box is shown in every stage but the two final ones. */
  predicate InputVisible(stage: Stage) {
    stage != Summary && stage != Upload
  }

  /** A snapshot of the component's state. */
  datatype InterviewState = InterviewState(messages: seq<Message>, input: string, stage: Stage, summary: TaskSummary)

  /** Message ids are 1, 2, 3, ... in order. */
  predicate IdsSequential(messages: seq<Message>) {
    forall i :: 0 <= i < |messages| ==> messages[i].id == i + 1
  }

  /** The messages one answer posts, numbered on from the `n` messages so
      far: the untrimmed answer with id `n + 1`, the reply with id `n + 2`,
      and, when the stage at the time of sending was already the summary,
      the summary message with id `n + 3`. */
  function Posted(s: InterviewState): (posted: seq<Message>)
    ensures |posted| == if s.stage == Summary then 3 else 2
    ensures forall k :: 0 <= k < |posted| ==> posted[k].id == |s.messages| + k + 1
    ensures posted[0] == Message(|s.messages| + 1, s.input, User, false)
    ensures posted[1] == Message(|s.messages| + 2, Process(s.stage, s.summary, s.input).reply, Bot, false)
    ensures s.stage == Summary ==> posted[2] == Message(|s.messages| + 3, SummaryText(s.summary), Bot, true)
  {
    var n := |s.messages|;
    var reply := Process(s.stage, s.summary, s.input).reply;
    [Message(n + 1, s.input, User, false), Message(n + 2, reply, Bot, false)]
      + (if s.stage == Summary then [Message(n + 3, SummaryText(s.summary), Bot, true)] else [])
  }

  /** `handleSend` together with its delayed `processUserInput`: a blank
      input changes nothing; otherwise the answer and the replies are
      posted, the stage and summary follow `processUserInput`, and the input
      is cleared. */
  function Submit(s: InterviewState): (r: InterviewState)
    ensures IsBlank(s.input) ==> r == s
    ensures !IsBlank(s.input) ==>
      && r.messages == s.messages + Posted(s)
      && r.stage == Process(s.stage, s.summary, s.input).stage
      && r.summary == Process(s.stage, s.summary, s.input).summary
      && r.input == ""
  {
    if IsBlank(s.input) then s
    else
      var t := Process(s.stage, s.summary, s.input);
      InterviewState(s.messages + Posted(s), "", t.stage, t.summary)
  }

  /** Submitting keeps the ids sequential. */
  lemma SubmitKeepsIdsSequential(s: InterviewState)
    requires IdsSequential(s.messages)
    ensures IdsSequential(Submit(s).messages)
  {
    if !IsBlank(s.input) {
      var n := |s.messages|;
      var posted := Posted(s);
      var all := s.messages + posted;
      forall i | 0 <= i < |all| ensures all[i].id == i + 1 {
        if i >= n {
          assert all[i] == posted[i - n];
        }
      }
    }
  }

  /** A submission adds a summary message exactly when the stage was already
      the summary before it; as the text box is hidden there, a submission
      made through the text box never adds one, not even the one that
      reaches the summary. */
  lemma SummaryMessageNeedsSummaryStage(s: InterviewState)
    requires !IsBlank(s.input)
    ensures (exists i :: |s.messages| <= i < |Submit(s).messages| && Submit(s).messages[i].isSummary)
        <==> s.stage == Summary
    ensures InputVisible(s.stage) ==>
      forall i :: |s.messages| <= i < |Submit(s).messages| ==> !Submit(s).messages[i].isSummary
  {
    var r := Submit(s);
    var n := |s.messages|;
    var posted := Posted(s);
    assert r.messages == s.messages + posted;
    if s.stage == Summary {
      assert r.messages[n + 2] == posted[2];
    } else {
      forall i | n <= i < |r.messages| ensures !r.messages[i].isSummary {
        assert r.messages[i] == posted[i - n];
        assert i - n == 0 || i - n == 1;
      }
    }
  }

  /** The component's state. */
  class Interview {
    var messages: seq<Message>
    var input: string
    var stage: Stage
    var summary: TaskSummary

    function State(): InterviewState
      reads this
    {
      InterviewState(messages, input, stage, summary)
    }

    /** The state on first render: the greeting, an empty summary. */
    constructor ()
      ensures State() == InterviewState([Message(1, Greeting, Bot, false)], "", TaskDescription, TaskSummary("", "", "", []))
    {
      messages := [Message(1, Greeting, Bot, false)];
      input := "";
      stage := TaskDescription;
      summary := TaskSummary("", "", "", []);
    }

    /** Typing into the text box. */
    method SetInput(text: string)
      modifies this`input
      ensures input == text
    {
      input := text;
    }

    /** Pressing send (or Enter). */
    method Send()
      modifies this
      ensures State() == Submit(old(State()))
    {
      var next := Submit(State());
      messages := next.messages;
      input := next.input;
      stage := next.stage;
      summary := next.summary;
    }
  }

  /** The five answers of a complete interview that declines the upload
      fill in the summary, in order, and end at the summary stage; one that
      accepts it ends at the upload stage with the same summary. */
  lemma {:induction false} CompleteInterview(task: string, robot: string, place: string, limits: string, media: string)
    ensures
      var t1 := Process(TaskDescription, TaskSummary("", "", "", []), task);
      var t2 := Process(t1.stage, t1.summary, robot);
      var t3 := Process(t2.stage, t2.summary, place);
      var t4 := Process(t3.stage, t3.summary, limits);
      var t5 := Process(t4.stage, t4.summary, media);
      && t5.summary == TaskSummary(task, robot, place, [limits])
      && t5.stage == (if WantsUpload(media) then Upload else Summary)
  {
    var t1 := Process(TaskDescription, TaskSummary("", "", "", []), task);
    var t2 := Process(t1.stage, t1.summary, robot);
    var t3 := Process(t2.stage, t2.summary, place);
    var t4 := Process(t3.stage, t3.summary, limits);
    assert t4.stage == Media && t4.summary == TaskSummary(task, robot, place, [limits]);
  }
}
