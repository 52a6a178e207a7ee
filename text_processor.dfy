/** `Backend/multimodal/text_processor.py`: the entity list, the summary
    and the length fields that `TextProcessor.process` returns for a text. */
module TextProcessor {
  import opened Seqs
  import opened Strings
  import opened Helpers

  /** At most this many entities are kept. */
  const MaxEntities: nat := 10

  /** Texts up to this length are their own summary. */
  const SummaryLength: nat := 100

  /** A word counts as an entity when it has more than five characters. */
  predicate IsEntity(word: string) {
    |word| > 5
  }

  /** `_extract_entities`: the longer words, in text order, at most ten. */
  function ExtractEntities(text: string): (entities: seq<string>)
    ensures entities <= Filter(Words(text), IsEntity)
    ensures |entities| == if |Filter(Words(text), IsEntity)| <= MaxEntities then |Filter(Words(text), IsEntity)| else MaxEntities
    ensures forall i :: 0 <= i < |entities| ==> IsEntity(entities[i]) && entities[i] in Words(text)
  {
    var all := Filter(Words(text), IsEntity);
    assert forall i :: 0 <= i < |Take(all, MaxEntities)| ==> Take(all, MaxEntities)[i] == all[i];
    Take(all, MaxEntities)
  }

  /** For words separated by single spaces, the entities are the first ten
      long words of the list. */
  lemma EntitiesOfJoinedWords(words: seq<string>)
    requires forall i :: 0 <= i < |words| ==> IsWord(words[i])
    ensures ExtractEntities(Join(words, " ")) == Take(Filter(words, IsEntity), MaxEntities)
  {
    WordsOfJoin(words);
  }

  /** `_generate_summary`: short texts unchanged, longer ones cut to 100
      characters followed by "...". */
  function GenerateSummary(text: string): (summary: string)
    ensures |text| <= SummaryLength ==> summary == text
    ensures |text| > SummaryLength ==>
      |summary| == SummaryLength + 3 && summary[..SummaryLength] == text[..SummaryLength]
      && summary[SummaryLength..] == "..."
  {
    if |text| <= SummaryLength then text else text[..SummaryLength] + "..."
  }

  /** The summary is `truncate_text` of `helpers.py` with its default limit. */
  lemma SummaryIsTruncation(text: string)
    ensures GenerateSummary(text) == TruncateText(text, SummaryLength)
  {
    if |text| > SummaryLength {
      assert PySliceTo(text, SummaryLength) == text[..SummaryLength];
    }
  }

  /** The placeholder feature vector of `_get_text_features_from_groq`. */
  const PlaceholderFeatures: seq<real> := [0.1, 0.2, 0.3]

  /** The dictionary `process` returns on its normal path. */
  datatype ProcessedText = ProcessedText(
    text: string,
    features: seq<real>,
    entities: seq<string>,
    summary: string,
    length: nat,
    wordCount: nat)

  function Process(text: string): (p: ProcessedText)
    ensures p.text == text && p.length == |text| && p.wordCount == |Words(text)|
    ensures p.entities == ExtractEntities(text) && p.summary == GenerateSummary(text)
    ensures p.features == PlaceholderFeatures
  {
    ProcessedText(text, PlaceholderFeatures, ExtractEntities(text), GenerateSummary(text), |text|, |Words(text)|)
  }

  /** The word count of words separated by single spaces is their number. */
  lemma WordCountOfJoinedWords(words: seq<string>)
    requires forall i :: 0 <= i < |words| ==> IsWord(words[i])
    ensures Process(Join(words, " ")).wordCount == |words|
  {
    WordsOfJoin(words);
  }
}
