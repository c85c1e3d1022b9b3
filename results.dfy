/** The FEM analysis group and `_find_rename_latest_result`: the first result
    object whose label does not yet start with "Iteration" is taken to be the
    result of the current iteration and renamed `Iteration{i}`. */
module Results {
  import opened Base

  /** A member of the analysis group: whether it derives from
      Fem::FemResultObject, and its label. */
  datatype GroupItem = GroupItem(isResult: bool, Label: string)

  const ITERATION_PREFIX := "Iteration"

  /** A result object not yet claimed by an iteration. */
  predicate Unlabelled(item: GroupItem) {
    item.isResult && !StartsWith(item.Label, ITERATION_PREFIX)
  }

  /** The position of the first unclaimed result, or None when there is none. */
  function FirstUnlabelledResult(g: seq<GroupItem>): (r: Option<nat>)
    ensures r.Some? ==> r.value < |g| && Unlabelled(g[r.value])
    ensures r.Some? ==> forall k :: 0 <= k < r.value ==> !Unlabelled(g[k])
    ensures r.None? <==> forall k :: 0 <= k < |g| ==> !Unlabelled(g[k])
  {
    if g == [] then None
    else if Unlabelled(g[0]) then Some(0)
    else
      match FirstUnlabelledResult(g[1..])
      case None => None
      case Some(k) => Some(k + 1)
  }

  // ---------------------------------------------------------------- labels

  /** The digit character of `d`. */
  function Digit(d: nat): char
    requires d < 10
  {
    ['0', '1', '2', '3', '4', '5', '6', '7', '8', '9'][d]
  }

  predicate IsDigit(c: char) {
    '0' <= c <= '9'
  }

  /** Python's `str(n)` for a non-negative integer: decimal, no leading zero. */
  function DecimalString(n: nat): (s: string)
    ensures 1 <= |s| && forall i :: 0 <= i < |s| ==> IsDigit(s[i])
    ensures 1 < |s| ==> s[0] != '0'
    ensures n < 10 <==> |s| == 1
  {
    if n < 10 then [Digit(n)] else DecimalString(n / 10) + [Digit(n % 10)]
  }

  /** The number a string of decimal digits denotes. */
  function DecimalValue(s: string): nat
    requires forall i :: 0 <= i < |s| ==> IsDigit(s[i])
  {
    if s == [] then 0 else 10 * DecimalValue(s[..|s| - 1]) + DigitValue(s[|s| - 1])
  }

  /** The value of a digit character. */
  function DigitValue(c: char): nat
    requires IsDigit(c)
  {
    c as int - '0' as int
  }

  lemma DigitRoundTrip(d: nat)
    requires d < 10
    ensures DigitValue(Digit(d)) == d
  {
  }

  /** Reading back the decimal string gives the number again. */
  lemma {:induction false} DecimalRoundTrip(n: nat)
    ensures DecimalValue(DecimalString(n)) == n
  {
    if n < 10 {
      DigitRoundTrip(n);
    } else {
      var s := DecimalString(n);
      DecimalRoundTrip(n / 10);
      DigitRoundTrip(n % 10);
      assert s[..|s| - 1] == DecimalString(n / 10);
    }
  }

  /** The label f"Iteration{i}". */
  function IterationLabel(iteration: nat): (l: string)
    ensures StartsWith(l, ITERATION_PREFIX)
  {
    ITERATION_PREFIX + DecimalString(iteration)
  }

  /** Different iterations get different labels. */
  lemma IterationLabelInjective(i: nat, j: nat)
    requires IterationLabel(i) == IterationLabel(j)
    ensures i == j
  {
    var n := |ITERATION_PREFIX|;
    assert IterationLabel(i)[n..] == DecimalString(i);
    assert IterationLabel(j)[n..] == DecimalString(j);
    DecimalRoundTrip(i);
    DecimalRoundTrip(j);
  }

  /** The group after `_find_rename_latest_result(iteration)`. */
  function Relabel(g: seq<GroupItem>, iteration: nat): seq<GroupItem> {
    match FirstUnlabelledResult(g)
    case None => g
    case Some(k) => g[k := g[k].(Label := IterationLabel(iteration))]
  }

  // ---------------------------------------------------------------- the analysis

  /** The FEM analysis object, whose `Group` the solver appends results to. */
  class Analysis {
    var group: seq<GroupItem>

    constructor (group: seq<GroupItem>)
      ensures this.group == group
    {
      this.group := group;
    }

    /** `_find_rename_latest_result`: rename the first unclaimed result and
        return its position. */
    method FindRenameLatestResult(iteration: nat) returns (r: Option<nat>)
      modifies this
      ensures r == FirstUnlabelledResult(old(group))
      ensures group == Relabel(old(group), iteration)
    {
      var k := 0;
      while k < |group|
        invariant 0 <= k <= |group|
        invariant group == old(group)
        invariant forall j :: 0 <= j < k ==> !Unlabelled(group[j])
      {
        if Unlabelled(group[k]) {
          group := group[k := group[k].(Label := IterationLabel(iteration))];
          return Some(k);
        }
        k := k + 1;
      }
      return None;
    }
  }

  // ---------------------------------------------------------------- properties

  /** Relabelling renames the chosen result to `Iteration{i}` and changes no
      other member, and no membership or result flag. */
  lemma RelabelChangesOnlyChosen(g: seq<GroupItem>, iteration: nat)
    ensures |Relabel(g, iteration)| == |g|
    ensures forall k :: 0 <= k < |g| ==> Relabel(g, iteration)[k].isResult == g[k].isResult
    ensures forall k :: 0 <= k < |g| && Some(k) != FirstUnlabelledResult(g) ==> Relabel(g, iteration)[k] == g[k]
    ensures FirstUnlabelledResult(g).Some? ==>
              Relabel(g, iteration)[FirstUnlabelledResult(g).value].Label == IterationLabel(iteration)
    ensures FirstUnlabelledResult(g).None? <==> Relabel(g, iteration) == g
  {
    match FirstUnlabelledResult(g)
    case None =>
    case Some(k) =>
      assert Relabel(g, iteration)[k] != g[k] by {
        assert !Unlabelled(Relabel(g, iteration)[k]);
      }
  }

  /** The number of unclaimed results. */
  function UnlabelledCount(g: seq<GroupItem>): nat {
    if g == [] then 0 else UnlabelledCount(g[..|g| - 1]) + (if Unlabelled(g[|g| - 1]) then 1 else 0)
  }

  lemma {:induction false} UnlabelledCountUpdate(g: seq<GroupItem>, k: nat, item: GroupItem)
    requires k < |g| && Unlabelled(g[k]) && !Unlabelled(item)
    ensures UnlabelledCount(g[k := item]) + 1 == UnlabelledCount(g)
  {
    var h := g[k := item];
    if k < |g| - 1 {
      UnlabelledCountUpdate(g[..|g| - 1], k, item);
      assert h[..|h| - 1] == g[..|g| - 1][k := item];
    } else {
      assert h[..|h| - 1] == g[..|g| - 1];
    }
  }

  /** Each relabelling claims exactly one result when there is one to claim. */
  lemma RelabelClaimsOne(g: seq<GroupItem>, iteration: nat)
    ensures FirstUnlabelledResult(g).Some? ==> UnlabelledCount(Relabel(g, iteration)) + 1 == UnlabelledCount(g)
    ensures FirstUnlabelledResult(g).None? ==> UnlabelledCount(Relabel(g, iteration)) == UnlabelledCount(g)
  {
    match FirstUnlabelledResult(g)
    case None =>
    case Some(k) =>
      UnlabelledCountUpdate(g, k, g[k].(Label := IterationLabel(iteration)));
  }

  /** After a relabelling, the next scan finds a later result, or none. */
  lemma RelabelMovesOn(g: seq<GroupItem>, iteration: nat)
    requires FirstUnlabelledResult(g).Some?
    ensures FirstUnlabelledResult(Relabel(g, iteration)).Some? ==>
              FirstUnlabelledResult(Relabel(g, iteration)).value > FirstUnlabelledResult(g).value
  {
    var k := FirstUnlabelledResult(g).value;
    var h := Relabel(g, iteration);
    assert !Unlabelled(h[k]);
    assert forall j :: 0 <= j < k ==> h[j] == g[j];
  }

  /** When every earlier result is claimed, the scan finds the first new result
      the solver appended. */
  lemma FindsAppendedResult(g: seq<GroupItem>, added: seq<GroupItem>)
    requires FirstUnlabelledResult(g).None?
    ensures FirstUnlabelledResult(g + added) ==
              match FirstUnlabelledResult(added)
              case None => None
              case Some(k) => Some(|g| + k)
  {
    var all := g + added;
    assert forall k :: 0 <= k < |g| ==> all[k] == g[k];
    assert forall k :: 0 <= k < |added| ==> all[|g| + k] == added[k];
    match FirstUnlabelledResult(added)
    case None =>
      assert forall k :: |g| <= k < |all| ==> all[k] == added[k - |g|];
    case Some(k) =>
  }
}
