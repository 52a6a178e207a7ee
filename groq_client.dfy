/** The two text helpers of `GroqClient` in `Backend/api/groq_client.py`:
    the first sentence of a video summary, and the object list drawn from
    an image description. */
module GroqClient {
  import opened Seqs
  import opened Strings

  /** `_extract_main_description`: the text before the first '.', with a
      '.' put back. `split` never returns an empty list, so the final
      `return summary` is never reached. */
  function ExtractMainDescription(summary: string): (r: string)
    ensures EndsWith(r, ".")
    ensures r[..|r| - 1] <= summary && '.' !in r[..|r| - 1]
    ensures |r| - 1 < |summary| ==> summary[|r| - 1] == '.'
    ensures '.' !in summary ==> r == summary + "."
  {
    var sentences := SplitOn(summary, '.');
    if |sentences| > 0 then
      var r := sentences[0] + ".";
      assert r[..|r| - 1] == sentences[0];
      r
    else summary
  }

  /** A summary whose first '.' follows `first` gives `first.`. */
  lemma FirstSentence(first: string, rest: string)
    requires '.' !in first
    ensures ExtractMainDescription(first + "." + rest) == first + "."
  {
    var s := first + "." + rest;
    assert s[|first|] == '.';
    assert forall j :: 0 <= j < |first| ==> s[j] == first[j];
  }

  /** The punctuation stripped from both ends of a candidate word. */
  const ObjectPunctuation: string := ",.!?():;"

  /** Words longer than four characters, measured before stripping. */
  predicate IsLongWord(word: string) {
    |word| > 4
  }

  function StripPunctuation(word: string): string {
    PyStrip(word, ObjectPunctuation)
  }

  /** The list comprehension of `_extract_objects_from_description`. */
  function ObjectCandidates(description: string): (objects: seq<string>)
    ensures |objects| == |Filter(Words(description), IsLongWord)|
    ensures forall i :: 0 <= i < |objects| ==>
      objects[i] == StripPunctuation(Filter(Words(description), IsLongWord)[i])
  {
    Map(Filter(Words(description), IsLongWord), StripPunctuation)
  }

  /** Every candidate is a stripped long word of the description. */
  lemma CandidateFromLongWord(description: string, j: nat)
    requires j < |ObjectCandidates(description)|
    ensures exists i :: (0 <= i < |Words(description)| && IsLongWord(Words(description)[i])
                          && StripPunctuation(Words(description)[i]) == ObjectCandidates(description)[j])
  {
    var words := Words(description);
    var long := Filter(words, IsLongWord);
    assert long[j] in words;
    var i :| 0 <= i < |words| && words[i] == long[j];
  }

  /** Every long word of the description, stripped, is a candidate. */
  lemma LongWordIsCandidate(description: string, i: nat)
    requires i < |Words(description)| && IsLongWord(Words(description)[i])
    ensures StripPunctuation(Words(description)[i]) in ObjectCandidates(description)
  {
    var words := Words(description);
    var long := Filter(words, IsLongWord);
    assert words[i] in long;
    var j :| 0 <= j < |long| && long[j] == words[i];
    assert ObjectCandidates(description)[j] == StripPunctuation(words[i]);
  }

  /** `order` lists the set of candidates as Python happens to iterate it:
      every candidate once, in an order the model leaves open. */
  predicate SetOrder(description: string, order: seq<string>) {
    Distinct(order) && Elements(order) == Elements(ObjectCandidates(description))
  }

  /** `list(set(objects))[:10]`: at most ten distinct candidates, all of
      them when there are no more than ten. */
  function UniqueObjects(description: string, order: seq<string>): (objects: seq<string>)
    requires SetOrder(description, order)
    ensures Distinct(objects)
    ensures |objects| == if |Elements(ObjectCandidates(description))| <= 10 then |Elements(ObjectCandidates(description))| else 10
    ensures forall i :: 0 <= i < |objects| ==> objects[i] in ObjectCandidates(description)
    ensures |Elements(ObjectCandidates(description))| <= 10 ==>
      Elements(objects) == Elements(ObjectCandidates(description))
  {
    DistinctCardinality(order);
    var objects := Take(order, 10);
    assert forall i :: 0 <= i < |objects| ==> objects[i] == order[i];
    assert forall i :: 0 <= i < |objects| ==> objects[i] in Elements(order);
    objects
  }

  /** `_extract_objects_from_description`: the chosen objects joined by
      ", "; every chosen object appears in the result. */
  function ExtractObjects(description: string, order: seq<string>): (objects: string)
    requires SetOrder(description, order)
    ensures forall o :: o in UniqueObjects(description, order) ==> Contains(objects, o)
  {
    var chosen := UniqueObjects(description, order);
    var joined := Join(chosen, ", ");
    assert forall o :: o in chosen ==> Contains(joined, o) by {
      forall o | o in chosen ensures Contains(joined, o) {
        var i :| 0 <= i < |chosen| && chosen[i] == o;
        JoinContainsParts(chosen, ", ", i);
      }
    }
    joined
  }

  /** Candidates come from whitespace-split words, so none holds a space. */
  lemma CandidateHasNoSpace(description: string, j: nat)
    requires j < |ObjectCandidates(description)|
    ensures ' ' !in ObjectCandidates(description)[j]
  {
    CandidateFromLongWord(description, j);
    var words := Words(description);
    var i :| 0 <= i < |words| && IsLongWord(words[i])
             && StripPunctuation(words[i]) == ObjectCandidates(description)[j];
    var w := words[i];
    assert IsWord(w);
    forall c | c in StripPunctuation(w) ensures c != ' ' {
      StripByKeeps(w, c => c in ObjectPunctuation, c);
      var k :| 0 <= k < |w| && w[k] == c;
      assert !IsPySpace(w[k]);
    }
  }

  /** Splitting the object list at its spaces gives the chosen objects back,
      each but the last followed by the ',' of the ", " separator, and
      joining those pieces with spaces gives the list again. */
  lemma ExtractObjectsSplit(description: string, order: seq<string>)
    requires SetOrder(description, order)
    requires UniqueObjects(description, order) != []
    ensures var objects := UniqueObjects(description, order);
            var pieces := SplitOn(ExtractObjects(description, order), ' ');
            |pieces| == |objects|
            && (forall i :: 0 <= i < |objects| - 1 ==> pieces[i] == objects[i] + ",")
            && pieces[|objects| - 1] == objects[|objects| - 1]
            && Join(pieces, " ") == ExtractObjects(description, order)
  {
    var objects := UniqueObjects(description, order);
    var candidates := ObjectCandidates(description);
    forall i | 0 <= i < |objects| ensures ' ' !in objects[i] {
      var j :| 0 <= j < |candidates| && candidates[j] == objects[i];
      CandidateHasNoSpace(description, j);
    }
    SplitJoinComma(objects);
  }

  /** The object list is empty exactly when no candidate is left, or the only
      one is a word made of punctuation. */
  lemma ExtractObjectsEmpty(description: string, order: seq<string>)
    requires SetOrder(description, order)
    ensures ExtractObjects(description, order) == "" <==> Elements(ObjectCandidates(description)) <= {""}
  {
    var objects := UniqueObjects(description, order);
    JoinEmpty(objects, ", ");
    ChosenBlank(objects, Elements(ObjectCandidates(description)));
  }

  /** Up to ten objects chosen from a set, the whole set when it is small,
      are at most one empty string exactly when the set has nothing else. */
  lemma ChosenBlank(objects: seq<string>, candidates: set<string>)
    requires |objects| == if |candidates| <= 10 then |candidates| else 10
    requires |candidates| <= 10 ==> Elements(objects) == candidates
    ensures (|objects| <= 1 && forall i :: 0 <= i < |objects| ==> objects[i] == "") <==> candidates <= {""}
  {
    if candidates <= {""} {
      if "" in candidates {
        assert candidates == {""};
      } else {
        assert candidates == {};
      }
      forall i | 0 <= i < |objects| ensures objects[i] == "" {
        assert objects[i] in Elements(objects);
      }
    }
    if |objects| <= 1 && forall i :: 0 <= i < |objects| ==> objects[i] == "" {
      forall x | x in candidates ensures x == "" {
        var i :| 0 <= i < |objects| && objects[i] == x;
      }
    }
  }
}
