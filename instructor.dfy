/** The routing decision at the end of `Instructor.process_request`
    (`Backend/Instructor/instructor.py`): send the user to a marketplace
    task or to data recording. The processed data, the similar tasks and
    the classifier output are inputs; computing them is I/O. */
module Instructor {
  import opened Wrappers
  import opened Strings
  import opened Json
  import opened TaskClassifier

  /** The threshold a confidence must exceed, in tenths (0.8). */
  const MarketplaceThreshold: nat := 8

  const MarketplaceMessage: string := "We found a matching application in our marketplace that can help with your task!"
  const RecordMessage: string := "Let's create a new task with your data to help you better."

  /** The two response dicts, by their `redirect_to` value. */
  datatype Response =
    | Marketplace(taskId: Value, confidence: nat, message: string)
    | RecordNewData(processedData: seq<Entry>, message: string)

  /** The `redirect_to` string of a response. */
  function RedirectTo(r: Response): string {
    match r
    case Marketplace(_, _, _) => "marketplace"
    case RecordNewData(_, _) => "record_new_data"
  }

  /** The `if`/`else` at the end of `process_request`. `similar_tasks[0]["id"]`
      raises `KeyError` when the first similar task has no id. */
  function Route(processedData: seq<Entry>, similarTasks: seq<seq<Entry>>, c: Classification): (r: Result<Response, PyError>)
    ensures r.Ok? && r.value.Marketplace? <==>
      similarTasks != [] && c.confidence > MarketplaceThreshold && HasKey(similarTasks[0], "id")
    ensures r.Err? <==>
      similarTasks != [] && c.confidence > MarketplaceThreshold && !HasKey(similarTasks[0], "id")
    ensures r.Err? ==> r.error == KeyError("id")
    ensures r.Ok? && r.value.Marketplace? ==>
      Some(r.value.taskId) == Lookup(similarTasks[0], "id") && r.value.confidence == c.confidence
      && r.value.message == MarketplaceMessage
    ensures r.Ok? && r.value.RecordNewData? ==>
      r.value == RecordNewData(processedData, RecordMessage)
  {
    if similarTasks != [] && c.confidence > MarketplaceThreshold then
      match Lookup(similarTasks[0], "id")
      case None => Err(KeyError("id"))
      case Some(id) => Ok(Marketplace(id, c.confidence, MarketplaceMessage))
    else Ok(RecordNewData(processedData, RecordMessage))
  }

  /** Classification followed by routing: a text that is not a string
      fails in the classifier; otherwise the marketplace is chosen exactly
      for an urgent text with similar tasks, the first of which must have an
      id. */
  function Decide(processedData: seq<Entry>, similarTasks: seq<seq<Entry>>): (r: Result<Response, PyError>)
    ensures TextOf(processedData).Err? ==> r == Err(AttributeError("lower"))
    ensures r.Ok? && r.value.Marketplace? <==>
      TextOf(processedData).Ok? && Urgent(TextOf(processedData).value)
      && similarTasks != [] && HasKey(similarTasks[0], "id")
    ensures TextOf(processedData).Ok? ==>
      (r.Err? <==> Urgent(TextOf(processedData).value) && similarTasks != [] && !HasKey(similarTasks[0], "id"))
    ensures r.Err? && TextOf(processedData).Ok? ==> r.error == KeyError("id")
    ensures r.Ok? && r.value.Marketplace? ==>
      Some(r.value.taskId) == Lookup(similarTasks[0], "id") && r.value.confidence == UrgentConfidence
    ensures r.Ok? && r.value.RecordNewData? ==> r.value == RecordNewData(processedData, RecordMessage)
  {
    match Classify(processedData, similarTasks)
    case Err(e) => Err(e)
    case Ok(c) => Route(processedData, similarTasks, c)
  }

  /** With the classifier in front, the marketplace is chosen exactly when
      there are similar tasks and the text says "urgent": "similar" alone
      gives 0.8, which is not above the threshold. */
  lemma MarketplaceNeedsUrgency(processedData: seq<Entry>, similarTasks: seq<seq<Entry>>)
    requires TextOf(processedData).Ok?
    requires similarTasks != [] ==> HasKey(similarTasks[0], "id")
    ensures Decide(processedData, similarTasks).Ok?
    ensures RedirectTo(Decide(processedData, similarTasks).value) == "marketplace" <==>
      similarTasks != [] && Urgent(TextOf(processedData).value)
  {
    var c := Classify(processedData, similarTasks).value;
    assert Decide(processedData, similarTasks) == Route(processedData, similarTasks, c);
  }

  /** A similar-task classification never reaches the marketplace. */
  lemma SimilarAloneRecords(processedData: seq<Entry>, similarTasks: seq<seq<Entry>>)
    ensures Route(processedData, similarTasks, Classification(SimilarTask, SimilarConfidence))
      == Ok(RecordNewData(processedData, RecordMessage))
  {
  }
}
