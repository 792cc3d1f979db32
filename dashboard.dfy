/** What the two dashboards share: the list of recent entries with the
    null entries dropped, and the profile-completion figure with its link. */
module Dashboard {
  import opened Wrappers
  import opened JsValue
  import opened Seqs

  /** `(list || []).filter(x => x !== null && x !== undefined)`: a missing
      list reads as empty, and each entry that is there is kept, in order. */
  function ValidEntries<T(!new)>(list: Option<seq<Option<T>>>): (r: seq<T>)
    ensures list.None? ==> r == []
    ensures list.Some? ==> forall x :: x in r <==> Some(x) in list.value
    ensures list.Some? ==> |r| + NullCount(list.value) == |list.value|
  {
    if list.None? then []
    else
      CompactDropsNulls(list.value);
      Compact(list.value)
  }

  /** The filter keeps order: the entries of two lists one after the other
      are the kept entries of the first, then those of the second; a list
      without null entries is kept whole. */
  lemma ValidEntriesKeepOrder<T(!new)>(xs: seq<Option<T>>, ys: seq<Option<T>>, zs: seq<T>)
    ensures ValidEntries(Some(xs + ys)) == ValidEntries(Some(xs)) + ValidEntries(Some(ys))
    ensures ValidEntries(Some(seq(|zs|, i requires 0 <= i < |zs| => Some(zs[i])))) == zs
  {
    CompactAppend(xs, ys);
    CompactOfPresent(zs);
  }

  /** `statistics?.profileCompletion || 0`. */
  function Completion(profileCompletion: Option<int>): (c: int)
    ensures NonZero(profileCompletion) ==> c == profileCompletion.value
    ensures !NonZero(profileCompletion) ==> c == 0
  {
    if NonZero(profileCompletion) then profileCompletion.value else 0
  }

  /** The 'complete your profile' link shows while the completion is below
      100. */
  predicate ShowsCompletionLink(profileCompletion: Option<int>) {
    Completion(profileCompletion) < 100
  }

  /** The link shows when no completion is known, disappears exactly from
      100 on, and a negative figure still shows it. */
  lemma CompletionLink(profileCompletion: Option<int>)
    ensures profileCompletion.None? ==> ShowsCompletionLink(profileCompletion)
    ensures profileCompletion.Some? ==>
      (ShowsCompletionLink(profileCompletion) <==> profileCompletion.value < 100)
  {
  }
}
