/** The pure helpers of `Backend/utils/helpers.py`: MIME-type and file-name
    checks, text truncation, and the recursive dictionary merge. */
module Helpers {
  import opened Wrappers
  import opened Seqs
  import opened Strings
  import opened Json

  /** `validate_mime_type`: membership in the allowed list. */
  function ValidateMimeType(mimeType: string, allowedTypes: seq<string>): (ok: bool)
    ensures ok <==> exists i :: 0 <= i < |allowedTypes| && allowedTypes[i] == mimeType
  {
    mimeType in allowedTypes
  }

  /** The characters `sanitize_filename` keeps (`isalnum` on ASCII). */
  predicate IsSafeChar(c: char) {
    IsAlnum(c) || c in "._- "
  }

  /** The filter step of `sanitize_filename`. */
  function SafeChars(filename: string): (safe: string)
    ensures forall i :: 0 <= i < |safe| ==> IsSafeChar(safe[i])
    ensures IsSubsequence(safe, filename)
    ensures forall c :: multiset(safe)[c] == if IsSafeChar(c) then multiset(filename)[c] else 0
    ensures (forall i :: 0 <= i < |filename| ==> IsSafeChar(filename[i])) ==> safe == filename
  {
    FilterIsSubsequence(filename, IsSafeChar);
    assert forall c :: multiset(Filter(filename, IsSafeChar))[c] == if IsSafeChar(c) then multiset(filename)[c] else 0 by {
      forall c ensures multiset(Filter(filename, IsSafeChar))[c] == if IsSafeChar(c) then multiset(filename)[c] else 0 {
        FilterMultiset(filename, IsSafeChar, c);
      }
    }
    if forall i :: 0 <= i < |filename| ==> IsSafeChar(filename[i]) then
      FilterKeepsAll(filename, IsSafeChar);
      Filter(filename, IsSafeChar)
    else
      Filter(filename, IsSafeChar)
  }

  /** Filtering an already filtered name changes nothing. */
  lemma SafeCharsIdempotent(filename: string)
    ensures SafeChars(SafeChars(filename)) == SafeChars(filename)
  {
    FilterIdempotent(filename, IsSafeChar);
  }

  /** The longest name `sanitize_filename` returns unchanged. */
  const MaxFilenameLength: nat := 255

  /** `sanitize_filename` as written: the longer branch calls
      `os.path.splitext`, but the module never imports `os`, so it raises
      `NameError`. */
  function SanitizeFilename(filename: string): (r: Result<string, PyError>)
    ensures r.Ok? <==> |SafeChars(filename)| <= MaxFilenameLength
    ensures r.Ok? ==> r.value == SafeChars(filename)
    ensures r.Err? ==> r.error == NameError("os")
  {
    var safe := SafeChars(filename);
    if |safe| > MaxFilenameLength then Err(NameError("os")) else Ok(safe)
  }

  /** 256 letters are safe, so the name is too long and the helper fails. */
  lemma SanitizeFilenameFailsOnLongName()
    ensures SanitizeFilename(seq(256, _ => 'a')).Err?
  {
    var name := seq(256, _ => 'a');
    assert forall i :: 0 <= i < |name| ==> IsSafeChar(name[i]);
  }

  /** The index of the last `c` in `s`, or -1. */
  function LastIndexOf(s: string, c: char): (k: int)
    ensures -1 <= k < |s|
    ensures k >= 0 ==> s[k] == c
    ensures forall j :: k < j < |s| ==> s[j] != c
  {
    if s == [] then -1
    else if s[|s| - 1] == c then |s| - 1
    else LastIndexOf(s[..|s| - 1], c)
  }

  /** Python's `posixpath.splitext`: the extension starts at the last `.`
      of the last path component, unless that component consists of dots
      up to it (so `.bashrc` has no extension). */
  function SplitExt(p: string): (r: (string, string))
    ensures r.0 + r.1 == p
    ensures r.1 == [] || (r.1[0] == '.' && '.' !in r.1[1..] && '/' !in r.1)
  {
    var sep := LastIndexOf(p, '/');
    var dot := LastIndexOf(p, '.');
    if dot > sep && exists k :: sep + 1 <= k < dot && p[k] != '.' then
      assert p[..dot] + p[dot..] == p;
      assert p[dot..][1..] == p[dot + 1..];
      (p[..dot], p[dot..])
    else
      assert p + [] == p;
      (p, [])
  }

  /** A cut of the stem followed by the extension keeps only characters of
      the name. */
  lemma SafeParts(name: string, ext: string)
    requires forall i :: 0 <= i < |name + ext| ==> IsSafeChar((name + ext)[i])
    ensures forall i :: 0 <= i < |Take(name, 250) + ext| ==> IsSafeChar((Take(name, 250) + ext)[i])
  {
    forall i | 0 <= i < |Take(name, 250) + ext| ensures IsSafeChar((Take(name, 250) + ext)[i]) {
      if i < |Take(name, 250)| {
        assert (Take(name, 250) + ext)[i] == (name + ext)[i];
      } else {
        assert (Take(name, 250) + ext)[i] == (name + ext)[|name| + i - |Take(name, 250)|];
      }
    }
  }

  /** `sanitize_filename` with `os` imported: an over-long name keeps its
      extension and the first 250 characters of the rest. */
  function SanitizeFilenameFixed(filename: string): (r: string)
    ensures forall i :: 0 <= i < |r| ==> IsSafeChar(r[i])
    ensures |SafeChars(filename)| <= MaxFilenameLength ==> r == SafeChars(filename)
    ensures |SafeChars(filename)| > MaxFilenameLength ==>
      var (name, ext) := SplitExt(SafeChars(filename));
      r == Take(name, 250) + ext
  {
    var safe := SafeChars(filename);
    if |safe| > MaxFilenameLength then
      var (name, ext) := SplitExt(safe);
      SafeParts(name, ext);
      Take(name, 250) + ext
    else safe
  }

  /** The fixed helper meets its limit whenever the extension, dot
      included, has at most five characters. */
  lemma SanitizeFilenameFixedLength(filename: string)
    requires |SplitExt(SafeChars(filename)).1| <= 5
    ensures |SanitizeFilenameFixed(filename)| <= MaxFilenameLength
  {
  }

  /** Python `s[:n]`, where a negative `n` counts from the end. */
  function PySliceTo(s: string, n: int): (r: string)
    ensures r <= s
    ensures n >= 0 ==> |r| == if n <= |s| then n else |s|
    ensures n < 0 ==> |r| == if |s| + n >= 0 then |s| + n else 0
  {
    var end := if n >= 0 then n else |s| + n;
    if end <= 0 then [] else if end >= |s| then s else s[..end]
  }

  /** `truncate_text`: text within the limit is returned as is; longer text
      is cut to the limit and gets "...". */
  function TruncateText(text: string, maxLength: int): (r: string)
    ensures |text| <= maxLength ==> r == text
    ensures |text| > maxLength ==> r == PySliceTo(text, maxLength) + "..."
    ensures |text| > maxLength && maxLength >= 0 ==>
      |r| == maxLength + 3 && r[..maxLength] == text[..maxLength] && EndsWith(r, "...")
  {
    if |text| <= maxLength then text else PySliceTo(text, maxLength) + "..."
  }

  /** The value `merge_dictionaries` stores under a key of `dict2`: the
      recursive merge when both sides are dicts, otherwise `dict2`'s value. */
  function MergeValue(existing: Option<Value>, incoming: Value): (v: Value)
    ensures !(existing.Some? && existing.value.Dict? && incoming.Dict?) ==> v == incoming
    decreases ValueSize(incoming), 0
  {
    if existing.Some? && existing.value.Dict? && incoming.Dict? then
      Dict(MergeInto(existing.value.entries, incoming.entries))
    else incoming
  }

  /** The loop of `merge_dictionaries`: each entry of `dict2`, in order,
      goes into the result. */
  function MergeInto(acc: seq<Entry>, d2: seq<Entry>): seq<Entry>
    decreases EntriesSize(d2), 1
  {
    if d2 == [] then acc
    else
      assert EntriesSize(d2) == 1 + ValueSize(d2[0].val) + EntriesSize(d2[1..]);
      var e := d2[0];
      MergeInto(Put(acc, e.key, MergeValue(Lookup(acc, e.key), e.val)), d2[1..])
  }

  /** The keys of `ks` that `known` lacks, in the order of `ks`. */
  function NewKeys(ks: seq<string>, known: seq<string>): (added: seq<string>)
    ensures forall i :: 0 <= i < |added| ==> added[i] in ks && added[i] !in known
    ensures forall i :: 0 <= i < |ks| && ks[i] !in known ==> ks[i] in added
    decreases |ks|
  {
    if ks == [] then []
    else
      var rest := NewKeys(ks[1..], known);
      assert forall i :: 1 <= i < |ks| ==> ks[i] == ks[1..][i - 1];
      if ks[0] in known then rest else [ks[0]] + rest
  }

  /** `merge_dictionaries(dict1, dict2)`: a copy of `dict1` with `dict2`
      merged in. Its keys are those of either dict, `dict1`'s first and in
      order, then the keys only in `dict2` in `dict2`'s order, with no key
      twice when `dict1` has none twice; a key only in `dict1` keeps its value; a key of `dict2` gets
      the recursive merge when both values are dicts, and `dict2`'s value
      otherwise. */
  function Merged(dict1: seq<Entry>, dict2: seq<Entry>): (merged: seq<Entry>)
    ensures forall k :: HasKey(merged, k) <==> HasKey(dict1, k) || HasKey(dict2, k)
    ensures Keys(dict1) <= Keys(merged)
    ensures forall k :: !HasKey(dict2, k) ==> Lookup(merged, k) == Lookup(dict1, k)
    ensures DistinctKeys(dict2) ==> forall k :: HasKey(dict2, k) ==>
      Lookup(merged, k) == Some(MergeValue(Lookup(dict1, k), Lookup(dict2, k).value))
    ensures DistinctKeys(dict2) ==> Keys(merged) == Keys(dict1) + NewKeys(Keys(dict2), Keys(dict1))
    ensures DistinctKeys(dict1) ==> DistinctKeys(merged)
  {
    var merged := MergeInto(dict1, dict2);
    MergeIntoKeysPrefix(dict1, dict2);
    assert DistinctKeys(dict2) ==> Keys(merged) == Keys(dict1) + NewKeys(Keys(dict2), Keys(dict1)) by {
      if DistinctKeys(dict2) {
        MergeIntoKeyOrder(dict1, dict2);
      }
    }
    assert DistinctKeys(dict1) ==> DistinctKeys(merged) by {
      if DistinctKeys(dict1) {
        MergeIntoDistinct(dict1, dict2);
      }
    }
    assert forall k :: HasKey(merged, k) <==> HasKey(dict1, k) || HasKey(dict2, k) by {
      forall k ensures HasKey(merged, k) <==> HasKey(dict1, k) || HasKey(dict2, k) {
        MergeIntoHasKey(dict1, dict2, k);
      }
    }
    assert forall k :: !HasKey(dict2, k) ==> Lookup(merged, k) == Lookup(dict1, k) by {
      forall k | !HasKey(dict2, k) ensures Lookup(merged, k) == Lookup(dict1, k) {
        MergeIntoOutside(dict1, dict2, k);
      }
    }
    assert DistinctKeys(dict2) ==> forall k :: HasKey(dict2, k) ==>
      Lookup(merged, k) == Some(MergeValue(Lookup(dict1, k), Lookup(dict2, k).value)) by {
      if DistinctKeys(dict2) {
        forall k | HasKey(dict2, k)
          ensures Lookup(merged, k) == Some(MergeValue(Lookup(dict1, k), Lookup(dict2, k).value))
        {
          MergeIntoInside(dict1, dict2, k);
        }
      }
    }
    merged
  }

  /** Merging nothing gives the first dict back. */
  lemma MergeWithEmpty(dict1: seq<Entry>)
    ensures Merged(dict1, []) == dict1
  {
  }

  /** One turn of the loop. */
  lemma MergeIntoStep(acc: seq<Entry>, d2: seq<Entry>)
    requires d2 != []
    ensures MergeInto(acc, d2)
        == MergeInto(Put(acc, d2[0].key, MergeValue(Lookup(acc, d2[0].key), d2[0].val)), d2[1..])
  {
  }

  /** A key is in the merged dict exactly when it is in either dict. */
  lemma {:induction false} MergeIntoHasKey(acc: seq<Entry>, d2: seq<Entry>, k: string)
    ensures HasKey(MergeInto(acc, d2), k) <==> HasKey(acc, k) || HasKey(d2, k)
    decreases |d2|
  {
    if d2 != [] {
      var e := d2[0];
      var next := Put(acc, e.key, MergeValue(Lookup(acc, e.key), e.val));
      PutKeys(acc, e.key, MergeValue(Lookup(acc, e.key), e.val));
      assert HasKey(next, k) <==> HasKey(acc, k) || k == e.key;
      MergeIntoHasKey(next, d2[1..], k);
      assert HasKey(d2, k) <==> k == e.key || HasKey(d2[1..], k);
    }
  }

  /** `dict1`'s keys keep their order at the front of the merged dict. */
  lemma {:induction false} MergeIntoKeysPrefix(acc: seq<Entry>, d2: seq<Entry>)
    ensures Keys(acc) <= Keys(MergeInto(acc, d2))
    decreases |d2|
  {
    if d2 != [] {
      var e := d2[0];
      var next := Put(acc, e.key, MergeValue(Lookup(acc, e.key), e.val));
      PutKeys(acc, e.key, MergeValue(Lookup(acc, e.key), e.val));
      MergeIntoKeysPrefix(next, d2[1..]);
    }
  }

  /** A key that is not among `ks` does not change which keys of `ks` are
      new. */
  lemma {:induction false} NewKeysIgnores(ks: seq<string>, known: seq<string>, k: string)
    requires k !in ks
    ensures NewKeys(ks, known + [k]) == NewKeys(ks, known)
    decreases |ks|
  {
    if ks != [] {
      assert ks[0] in known + [k] <==> ks[0] in known;
      NewKeysIgnores(ks[1..], known, k);
    }
  }

  /** One unfolding of `NewKeys`. */
  lemma NewKeysCons(k: string, ks: seq<string>, known: seq<string>)
    ensures NewKeys([k] + ks, known) == if k in known then NewKeys(ks, known) else [k] + NewKeys(ks, known)
  {
    assert ([k] + ks)[1..] == ks;
  }

  /** A key `dict1` already has adds nothing to the key order. */
  lemma KeyOrderKnown(known: seq<string>, k: string, rest: seq<string>)
    requires k in known
    ensures known + NewKeys(rest, known) == known + NewKeys([k] + rest, known)
  {
    NewKeysCons(k, rest, known);
  }

  /** A new key goes to the end, and the keys after it are new with respect
      to the longer key list exactly when they were before. */
  lemma KeyOrderNew(known: seq<string>, k: string, rest: seq<string>)
    requires k !in known && k !in rest
    ensures (known + [k]) + NewKeys(rest, known + [k]) == known + NewKeys([k] + rest, known)
  {
    NewKeysCons(k, rest, known);
    NewKeysIgnores(rest, known, k);
    var added := NewKeys(rest, known);
    assert (known + [k]) + added == known + ([k] + added);
  }

  /** The keys only in `dict2` follow `dict1`'s keys, in `dict2`'s order. */
  lemma {:induction false} MergeIntoKeyOrder(acc: seq<Entry>, d2: seq<Entry>)
    requires DistinctKeys(d2)
    ensures Keys(MergeInto(acc, d2)) == Keys(acc) + NewKeys(Keys(d2), Keys(acc))
    decreases |d2|
  {
    if d2 != [] {
      var e := d2[0];
      var next := Put(acc, e.key, MergeValue(Lookup(acc, e.key), e.val));
      var rest := Keys(d2[1..]);
      MergeIntoStep(acc, d2);
      PutKeys(acc, e.key, MergeValue(Lookup(acc, e.key), e.val));
      DistinctKeysTail(d2);
      MergeIntoKeyOrder(next, d2[1..]);
      assert Keys(d2) == [e.key] + rest;
      assert e.key !in rest by {
        forall j | 0 <= j < |rest| ensures rest[j] != e.key {
          assert rest[j] == Keys(d2)[j + 1];
        }
      }
      if e.key in Keys(acc) {
        KeyOrderKnown(Keys(acc), e.key, rest);
      } else {
        KeyOrderNew(Keys(acc), e.key, rest);
      }
    }
  }

  /** Merging into a dict with distinct keys keeps them distinct. */
  lemma {:induction false} MergeIntoDistinct(acc: seq<Entry>, d2: seq<Entry>)
    requires DistinctKeys(acc)
    ensures DistinctKeys(MergeInto(acc, d2))
    decreases |d2|
  {
    if d2 != [] {
      var e := d2[0];
      PutKeepsDistinct(acc, e.key, MergeValue(Lookup(acc, e.key), e.val));
      MergeIntoDistinct(Put(acc, e.key, MergeValue(Lookup(acc, e.key), e.val)), d2[1..]);
    }
  }

  /** A key not in `dict2` keeps its `dict1` value. */
  lemma {:induction false} MergeIntoOutside(acc: seq<Entry>, d2: seq<Entry>, k: string)
    requires !HasKey(d2, k)
    ensures Lookup(MergeInto(acc, d2), k) == Lookup(acc, k)
    decreases |d2|
  {
    if d2 != [] {
      var e := d2[0];
      assert e.key == Keys(d2)[0];
      assert Keys(d2[1..]) == Keys(d2)[1..];
      PutLookupOther(acc, e.key, MergeValue(Lookup(acc, e.key), e.val), k);
      MergeIntoOutside(Put(acc, e.key, MergeValue(Lookup(acc, e.key), e.val)), d2[1..], k);
    }
  }

  /** A key of `dict2` (whose keys are distinct, as in any dict) gets the
      merged value: the recursive merge when both sides are dicts, otherwise
      `dict2`'s value. */
  lemma {:induction false} MergeIntoInside(acc: seq<Entry>, d2: seq<Entry>, k: string)
    requires DistinctKeys(d2) && HasKey(d2, k)
    ensures Lookup(MergeInto(acc, d2), k) == Some(MergeValue(Lookup(acc, k), Lookup(d2, k).value))
    decreases |d2|
  {
    var e := d2[0];
    var next := Put(acc, e.key, MergeValue(Lookup(acc, e.key), e.val));
    assert Keys(d2) == [e.key] + Keys(d2[1..]);
    if e.key == k {
      assert !HasKey(d2[1..], k) by {
        forall j | 0 <= j < |d2[1..]| ensures d2[1..][j].key != k {
          assert Keys(d2)[j + 1] == d2[1..][j].key;
        }
      }
      MergeIntoOutside(next, d2[1..], k);
      PutLookupSame(acc, k, MergeValue(Lookup(acc, k), e.val));
    } else {
      DistinctKeysTail(d2);
      MergeIntoInside(next, d2[1..], k);
      PutLookupOther(acc, e.key, MergeValue(Lookup(acc, e.key), e.val), k);
    }
  }

  /** `merge_dictionaries` as the source runs it: copy `dict1`, then loop
      over `dict2`, recursing where both values are dicts. */
  method MergeDictionaries(dict1: seq<Entry>, dict2: seq<Entry>) returns (result: seq<Entry>)
    ensures result == Merged(dict1, dict2)
    decreases EntriesSize(dict2)
  {
    result := dict1;
    var i := 0;
    while i < |dict2|
      invariant 0 <= i <= |dict2|
      invariant MergeInto(result, dict2[i..]) == MergeInto(dict1, dict2)
    {
      var key, value := dict2[i].key, dict2[i].val;
      var existing := Lookup(result, key);
      var stored := value;
      if existing.Some? && existing.value.Dict? && value.Dict? {
        EntrySmaller(dict2, i);
        var inner := MergeDictionaries(existing.value.entries, value.entries);
        stored := Dict(inner);
      }
      assert stored == MergeValue(existing, value);
      MergeIntoStep(result, dict2[i..]);
      assert dict2[i..][0] == dict2[i] && dict2[i..][1..] == dict2[i + 1..];
      result := Put(result, key, stored);
      i := i + 1;
    }
  }
}
