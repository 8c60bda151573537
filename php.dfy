/** The few PHP built-ins that the theme's preprocessors rely on, with PHP's meaning
    for strings (byte strings are modelled as sequences of characters). */
module Php {

  /** `strpos($s, $prefix) === 0`: the string starts with the (non-empty) prefix. */
  predicate StartsWith(s: string, prefix: string)
  {
    |prefix| <= |s| && s[..|prefix|] == prefix
  }

  /** PHP's `empty()` applied to a string: true for "" and for "0". */
  predicate IsEmptyString(s: string)
  {
    s == "" || s == "0"
  }

  /** `search` occurs in `s` starting at position `i`. */
  predicate OccursAt(search: string, s: string, i: nat)
  {
    i + |search| <= |s| && s[i..i + |search|] == search
  }

  /** `search` occurs somewhere in `s`. */
  ghost predicate Occurs(search: string, s: string)
  {
    exists i: nat :: OccursAt(search, s, i)
  }

  /** `str_replace($search, $replace, $subject)` for string arguments: one scan from
      left to right that replaces each non-overlapping occurrence of `search`;
      the replaced text is not scanned again. An empty `search` leaves the subject as it is. */
  function StrReplace(search: string, replace: string, subject: string): (r: string)
    decreases |subject|
  {
    if search == [] || |subject| < |search| then subject
    else if subject[..|search|] == search then replace + StrReplace(search, replace, subject[|search|..])
    else [subject[0]] + StrReplace(search, replace, subject[1..])
  }

  /** A subject in which `search` does not occur comes back unchanged. */
  lemma {:induction false} StrReplaceWithoutOccurrence(search: string, replace: string, subject: string)
    requires !Occurs(search, subject)
    ensures StrReplace(search, replace, subject) == subject
    decreases |subject|
  {
    if search == [] || |subject| < |search| {
    } else {
      assert !OccursAt(search, subject, 0);
      assert subject[..|search|] != search;
      forall i: nat | OccursAt(search, subject[1..], i)
        ensures false
      {
        assert subject[1..][i..i + |search|] == subject[i + 1..i + 1 + |search|];
        assert OccursAt(search, subject, i + 1);
      }
      StrReplaceWithoutOccurrence(search, replace, subject[1..]);
    }
  }

  /** A leading occurrence is replaced and the scan goes on right after it. */
  lemma StrReplaceLeading(search: string, replace: string, rest: string)
    requires search != []
    ensures StrReplace(search, replace, search + rest) == replace + StrReplace(search, replace, rest)
  {
    assert (search + rest)[..|search|] == search;
    assert (search + rest)[|search|..] == rest;
  }

  /** Deleting occurrences (an empty replacement) never makes the string longer,
      and shortens it by `|search|` at least once when `search` occurs. */
  lemma {:induction false} StrReplaceDeletionShrinks(search: string, subject: string)
    ensures |StrReplace(search, "", subject)| <= |subject|
    ensures search != [] && Occurs(search, subject) ==> |StrReplace(search, "", subject)| <= |subject| - |search|
    decreases |subject|
  {
    if search == [] || |subject| < |search| {
    } else if subject[..|search|] == search {
      StrReplaceDeletionShrinks(search, subject[|search|..]);
    } else {
      StrReplaceDeletionShrinks(search, subject[1..]);
      if search != [] && Occurs(search, subject) {
        var i: nat :| OccursAt(search, subject, i);
        assert i != 0;
        assert subject[1..][i - 1..i - 1 + |search|] == subject[i..i + |search|];
        assert OccursAt(search, subject[1..], i - 1);
      }
    }
  }
}
