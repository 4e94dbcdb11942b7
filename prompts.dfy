/**
 * `choice_prompt`: ask for an integer until one lies in the inclusive range.
 * The user's answers are given as a finite sequence; running out of them
 * stands for the user never answering acceptably.
 */
module Prompts {
  import opened Wrappers

  predicate InRange(x: int, lo: int, hi: int) {
    lo <= x <= hi
  }

  /** Position of the first answer inside the range, if any. */
  function FirstInRange(answers: seq<int>, lo: int, hi: int): (k: Option<nat>)
    ensures k.Some? ==> k.value < |answers| && InRange(answers[k.value], lo, hi)
    ensures k.Some? ==> forall j :: 0 <= j < k.value ==> !InRange(answers[j], lo, hi)
    ensures k.None? ==> forall j :: 0 <= j < |answers| ==> !InRange(answers[j], lo, hi)
  {
    if answers == [] then None
    else if InRange(answers[0], lo, hi) then Some(0)
    else match FirstInRange(answers[1..], lo, hi)
      case None => None
      case Some(i) => Some(i + 1)
  }

  /**
   * The loop of `choice_prompt`. Returns the accepted answer and how many
   * times "Invalid choice, try again" was printed before it.
   */
  method ChoicePrompt(answers: seq<int>, minIndex: int, maxIndex: int) returns (choice: Option<int>, complaints: nat)
    ensures choice.Some? ==> InRange(choice.value, minIndex, maxIndex)
    ensures match FirstInRange(answers, minIndex, maxIndex)
      case Some(k) => choice == Some(answers[k]) && complaints == k
      case None => choice == None && complaints == |answers|
  {
    complaints := 0;
    choice := None;
    while complaints < |answers|
      invariant complaints <= |answers|
      invariant forall j :: 0 <= j < complaints ==> !InRange(answers[j], minIndex, maxIndex)
    {
      var index := answers[complaints];
      if InRange(index, minIndex, maxIndex) {
        choice := Some(index);
        FirstIsAt(answers, minIndex, maxIndex, complaints);
        return;
      }
      complaints := complaints + 1;
    }
  }

  /** An in-range answer preceded only by out-of-range ones is the first in range. */
  lemma {:induction false} FirstIsAt(answers: seq<int>, lo: int, hi: int, k: nat)
    requires k < |answers| && InRange(answers[k], lo, hi)
    requires forall j :: 0 <= j < k ==> !InRange(answers[j], lo, hi)
    ensures FirstInRange(answers, lo, hi) == Some(k)
  {
    if k > 0 {
      FirstIsAt(answers[1..], lo, hi, k - 1);
    }
  }
}
