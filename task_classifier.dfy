/** `TaskClassifier.classify` of `Backend/Instructor/task_classifier.py`:
    a keyword rule and the presence of similar tasks choose a task type and
    a marketplace confidence. Confidences are exact tenths (9 is 0.9). */
module TaskClassifier {
  import opened Wrappers
  import opened Strings
  import opened Json

  datatype TaskType = Unknown | UrgentTask | SimilarTask

  /** The `task_type` string of the result. */
  function TaskTypeName(t: TaskType): string {
    match t
    case Unknown => "unknown"
    case UrgentTask => "urgent_task"
    case SimilarTask => "similar_task"
  }

  /** The result dict: its two keys `task_type` and
      `marketplace_confidence`, the latter in tenths. */
  datatype Classification = Classification(taskType: TaskType, confidence: nat)

  const UrgentConfidence: nat := 9
  const SimilarConfidence: nat := 8
  const NoConfidence: nat := 0

  /** `processed_data.get("text", "")` ready for `.lower()`: a missing key
      gives the empty string; a value that is not a string has no `lower`
      and raises `AttributeError`. */
  function TextOf(processedData: seq<Entry>): (r: Result<string, PyError>)
    ensures !HasKey(processedData, "text") ==> r == Ok("")
    ensures HasKey(processedData, "text") ==>
      (r.Ok? <==> Lookup(processedData, "text").value.Str?)
    ensures r.Ok? && HasKey(processedData, "text") ==> Lookup(processedData, "text") == Some(Str(r.value))
    ensures r.Err? ==> r.error == AttributeError("lower")
  {
    match Lookup(processedData, "text")
    case None => Ok("")
    case Some(Str(s)) => Ok(s)
    case Some(_) => Err(AttributeError("lower"))
  }

  predicate Urgent(text: string) {
    Contains(Lower(text), "urgent")
  }

  /** `classify`: "urgent" in the lowercased text wins, whatever the similar
      tasks; otherwise any similar task gives 0.8; otherwise "unknown" and
      0.0. */
  function Classify(processedData: seq<Entry>, similarTasks: seq<seq<Entry>>): (r: Result<Classification, PyError>)
    ensures r.Err? <==> TextOf(processedData).Err?
    ensures r.Ok? ==> r.value.confidence in {NoConfidence, SimilarConfidence, UrgentConfidence}
    ensures r.Ok? && Urgent(TextOf(processedData).value) ==>
      r.value == Classification(UrgentTask, UrgentConfidence)
    ensures r.Ok? && !Urgent(TextOf(processedData).value) && similarTasks != [] ==>
      r.value == Classification(SimilarTask, SimilarConfidence)
    ensures r.Ok? && !Urgent(TextOf(processedData).value) && similarTasks == [] ==>
      r.value == Classification(Unknown, NoConfidence)
  {
    match TextOf(processedData)
    case Err(e) => Err(e)
    case Ok(text) =>
      if Urgent(text) then Ok(Classification(UrgentTask, UrgentConfidence))
      else if similarTasks != [] then Ok(Classification(SimilarTask, SimilarConfidence))
      else Ok(Classification(Unknown, NoConfidence))
  }

  /** Without a text, a task is never urgent. */
  lemma MissingTextIsNotUrgent(processedData: seq<Entry>, similarTasks: seq<seq<Entry>>)
    requires !HasKey(processedData, "text")
    ensures Classify(processedData, similarTasks).Ok?
    ensures Classify(processedData, similarTasks).value.taskType != UrgentTask
  {
    assert Lower("") == "";
    assert !Contains("", "urgent");
  }

  /** The task type and the confidence determine each other. */
  lemma ConfidenceNamesTheType(processedData: seq<Entry>, similarTasks: seq<seq<Entry>>)
    requires Classify(processedData, similarTasks).Ok?
    ensures var c := Classify(processedData, similarTasks).value;
      && (c.taskType == UrgentTask <==> c.confidence == UrgentConfidence)
      && (c.taskType == SimilarTask <==> c.confidence == SimilarConfidence)
      && (c.taskType == Unknown <==> c.confidence == NoConfidence)
  {
  }
}
