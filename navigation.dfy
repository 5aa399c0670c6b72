/** The step controller's arithmetic and text: what `showStep` derives from the
    step index (progress, label, button label, section and pill flags), and the
    decisions taken by the back, forward and pill click handlers. */
module Navigation {
  import opened Wrappers
  import opened Decimal

  const SUBMIT_LABEL: string := "Submit"
  const NEXT_LABEL: string := "Next \U{2192}"
  const LABEL_SEPARATOR: string := " \U{00B7} "

  /** Percentage shown for step `i` of `total`: 100 * (i + 1) / total rounded half up,
      which is what `Math.round` does on a positive quotient. */
  function Progress(i: nat, total: nat): (p: nat)
    requires i < total
    ensures 2 * total * p <= 200 * (i + 1) + total < 2 * total * (p + 1)
  {
    (200 * (i + 1) + total) / (2 * total)
  }

  /** The rounded percentage is the only number in its half-open rounding interval;
      every property below rests on this. */
  lemma ProgressUnique(i: nat, total: nat, q: nat)
    requires i < total
    requires 2 * total * q <= 200 * (i + 1) + total < 2 * total * (q + 1)
    ensures Progress(i, total) == q
  {
    var p := Progress(i, total);
    if p < q {
      assert 2 * total * (p + 1) <= 2 * total * q by { MulMono(2 * total, p + 1, q); }
    } else if p > q {
      assert 2 * total * (q + 1) <= 2 * total * p by { MulMono(2 * total, q + 1, p); }
    }
  }

  lemma MulMono(c: nat, a: nat, b: nat)
    requires a <= b
    ensures c * a <= c * b
  {
  }

  lemma ProgressAtMost100(i: nat, total: nat)
    requires i < total
    ensures Progress(i, total) <= 100
  {
    var p := Progress(i, total);
    if p > 100 {
      MulMono(2 * total, 101, p);
    }
  }

  /** Progress never decreases as the step index grows. */
  lemma ProgressMonotone(i: nat, j: nat, total: nat)
    requires i <= j < total
    ensures Progress(i, total) <= Progress(j, total)
  {
    var p, q := Progress(i, total), Progress(j, total);
    if p > q {
      MulMono(2 * total, q + 1, p);
    }
  }

  /** The last step shows 100%. */
  lemma ProgressOfLastStep(total: nat)
    requires total >= 1
    ensures Progress(total - 1, total) == 100
  {
    ProgressUnique(total - 1, total, 100);
  }

  /** Exactly when 100% is shown: 100 * (i + 1) / total is at least 99.5. */
  lemma ProgressFullIff(i: nat, total: nat)
    requires i < total
    ensures Progress(i, total) == 100 <==> 200 * (i + 1) >= 199 * total
  {
    ProgressAtMost100(i, total);
    var p := Progress(i, total);
    if p == 100 {
      assert 200 * total <= 200 * (i + 1) + total;
    } else {
      assert p <= 99;
      MulMono(2 * total, p + 1, 100);
    }
  }

  /** With fewer than 200 sections only the last step shows 100%. */
  lemma ProgressFullOnlyOnLastStep(i: nat, total: nat)
    requires i < total < 200
    ensures Progress(i, total) == 100 <==> i == total - 1
  {
    ProgressFullIff(i, total);
  }

  /** With 200 sections the last but one step already rounds to 100%. */
  lemma ProgressFullBeforeLastStep()
    ensures Progress(198, 200) == 100
  {
    ProgressFullIff(198, 200);
  }

  /** Exactly when at least 1% is shown: 100 * (i + 1) / total is at least 0.5. */
  lemma ProgressPositiveIff(i: nat, total: nat)
    requires i < total
    ensures Progress(i, total) >= 1 <==> total <= 200 * (i + 1)
  {
    var p := Progress(i, total);
    if p == 0 {
      assert 200 * (i + 1) + total < 2 * total;
    } else {
      MulMono(2 * total, 1, p);
    }
  }

  /** With at most 200 sections every step shows between 1% and 100%. */
  lemma ProgressInRange(i: nat, total: nat)
    requires i < total <= 200
    ensures 1 <= Progress(i, total) <= 100
  {
    ProgressPositiveIff(i, total);
    ProgressAtMost100(i, total);
  }

  /** The section's own title (its `data-title`, "" when absent or empty),
      or "Section n" for the 1-based step number n. */
  function Title(i: nat, dataTitle: string): string
  {
    if dataTitle != "" then dataTitle else "Section " + NatToString(i + 1)
  }

  /** The step label "Section n of m · title". */
  function StepLabel(i: nat, total: nat, dataTitle: string): string
  {
    "Section " + NatToString(i + 1) + " of " + NatToString(total) + LABEL_SEPARATOR + Title(i, dataTitle)
  }

  datatype LabelParts = LabelParts(step: nat, total: nat, title: string)

  /** Reads a non-empty run of digits followed by `sep`, giving the number and what follows. */
  function ReadNumberThen(s: string, sep: string): Option<(nat, string)>
  {
    var a := LeadingDigits(s);
    if a == [] || |s| < |a| + |sep| || s[|a|..|a| + |sep|] != sep then None
    else Some((DigitsValue(a), s[|a| + |sep|..]))
  }

  lemma ReadNumberThenOf(n: nat, sep: string, rest: string)
    requires sep != [] && !IsDigit(sep[0])
    ensures ReadNumberThen(NatToString(n) + sep + rest, sep) == Some((n, rest))
  {
    var d := NatToString(n);
    var s := d + sep + rest;
    assert s == d + (sep + rest);
    LeadingDigitsOfConcat(d, sep + rest);
    assert s[|d|..|d| + |sep|] == sep && s[|d| + |sep|..] == rest;
    NatToStringRoundTrip(n);
  }

  /** Reads a step label back into its 1-based step number, the section count and the title. */
  function ParseLabel(text: string): Option<LabelParts>
  {
    if |text| < 8 || text[..8] != "Section " then None
    else match ReadNumberThen(text[8..], " of ")
      case None => None
      case Some((step, r)) =>
        match ReadNumberThen(r, LABEL_SEPARATOR)
        case None => None
        case Some((total, title)) => Some(LabelParts(step, total, title))
  }

  /** The label names the 1-based step, the section count and the title, unambiguously. */
  lemma StepLabelRoundTrip(i: nat, total: nat, dataTitle: string)
    ensures ParseLabel(StepLabel(i, total, dataTitle)) == Some(LabelParts(i + 1, total, Title(i, dataTitle)))
  {
    var t := Title(i, dataTitle);
    var r2 := NatToString(total) + LABEL_SEPARATOR + t;
    var r := NatToString(i + 1) + " of " + r2;
    var s := StepLabel(i, total, dataTitle);
    assert s == "Section " + r;
    assert s[..8] == "Section " && s[8..] == r;
    ReadNumberThenOf(i + 1, " of ", r2);
    ReadNumberThenOf(total, LABEL_SEPARATOR, t);
  }

  /** The forward button's label: "Submit" exactly on the last step, "Next →" otherwise. */
  function NextLabel(i: nat, total: nat): (s: string)
    requires i < total
    ensures s == SUBMIT_LABEL <==> i == total - 1
    ensures s != SUBMIT_LABEL ==> s == NEXT_LABEL
  {
    if i == total - 1 then SUBMIT_LABEL else NEXT_LABEL
  }

  /** The `active` flags on n elements when step i is shown. */
  function ActiveFlags(n: nat, i: nat): (f: seq<bool>)
    ensures |f| == n
    ensures forall k :: 0 <= k < n ==> (f[k] <==> k == i)
  {
    seq(n, k => k == i)
  }

  /** The `completed` flags on n pills when step i is shown. */
  function CompletedFlags(n: nat, i: nat): (f: seq<bool>)
    ensures |f| == n
    ensures forall k :: 0 <= k < n ==> (f[k] <==> k < i)
  {
    seq(n, k => k < i)
  }

  function CountTrue(f: seq<bool>): nat
  {
    if f == [] then 0 else CountTrue(f[..|f| - 1]) + (if f[|f| - 1] then 1 else 0)
  }

  /** Showing a step leaves exactly one element active, the one at the step index. */
  lemma {:induction false} ExactlyOneActive(n: nat, i: nat)
    requires i < n
    ensures CountTrue(ActiveFlags(n, i)) == 1
  {
    ActiveCount(n, i);
  }

  lemma {:induction false} ActiveCount(n: nat, i: nat)
    ensures CountTrue(ActiveFlags(n, i)) == if i < n then 1 else 0
  {
    if n > 0 {
      assert ActiveFlags(n, i)[..n - 1] == ActiveFlags(n - 1, i);
      ActiveCount(n - 1, i);
    }
  }

  /** Showing step i marks exactly the pills before it completed (all of them if there are fewer). */
  lemma {:induction false} CompletedCount(n: nat, i: nat)
    ensures CountTrue(CompletedFlags(n, i)) == if i < n then i else n
  {
    if n > 0 {
      assert CompletedFlags(n, i)[..n - 1] == CompletedFlags(n - 1, i);
      CompletedCount(n - 1, i);
    }
  }

  /** No pill is both active and completed. */
  lemma PillNeverActiveAndCompleted(n: nat, i: nat, k: nat)
    requires k < n
    ensures !(ActiveFlags(n, i)[k] && CompletedFlags(n, i)[k])
  {
  }

  /** A user action on the step controls. */
  datatype Command = Forward | Back | Jump(target: nat)

  /** What the click handler does: show another step, nothing, or submit. */
  datatype Move = Go(step: nat) | Stay | Submit

  /** The decision of the back, forward and pill click handlers at step `cur`. */
  function Navigate(cur: nat, total: nat, c: Command): (m: Move)
    requires cur < total
    ensures m.Go? ==> m.step < total
    ensures m.Submit? <==> c == Forward && cur == total - 1
  {
    match c
    case Forward => if cur < total - 1 then Go(cur + 1) else Submit
    case Back => if cur > 0 then Go(cur - 1) else Stay
    case Jump(target) => if target <= cur then Go(target) else Stay
  }

  /** Forward moves one step on, except on the last step, where it submits. */
  lemma ForwardMoves(cur: nat, total: nat)
    requires cur < total
    ensures Navigate(cur, total, Forward) == if cur + 1 < total then Go(cur + 1) else Submit
  {
  }

  /** Back moves one step back, except on the first step, where it does nothing. */
  lemma BackMoves(cur: nat, total: nat)
    requires cur < total
    ensures Navigate(cur, total, Back) == if cur == 0 then Stay else Go(cur - 1)
  {
  }

  /** A pill ahead of the current step is ignored; any other pill shows its step. */
  lemma JumpMoves(cur: nat, total: nat, target: nat)
    requires cur < total
    ensures target > cur ==> Navigate(cur, total, Jump(target)) == Stay
    ensures target <= cur ==> Navigate(cur, total, Jump(target)) == Go(target)
  {
  }

  /** Back undoes Forward, and Forward undoes Back, wherever the first move happens. */
  lemma BackUndoesForward(cur: nat, total: nat)
    requires cur < total
    ensures Navigate(cur, total, Forward).Go? ==> Navigate(Navigate(cur, total, Forward).step, total, Back) == Go(cur)
    ensures Navigate(cur, total, Back).Go? ==> Navigate(Navigate(cur, total, Back).step, total, Forward) == Go(cur)
  {
  }
}
