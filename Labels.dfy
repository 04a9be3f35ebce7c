/**
 * Branch labels: `Label_` + a role + the value of the generator's global
 * label counter. A label is defined by a line `<label>:`; `LabelOf` reads the
 * counter value back from such a line, so that uniqueness of the emitted
 * labels can be stated over the instruction lines themselves.
 */
module Labels {
  import opened Wrappers
  import opened Numerals

  predicate IsRoleChar(c: char) { 'a' <= c <= 'z' }

  /** Roles are lower-case words: "else", "endif", "false", "after", "true", "whileend", ... */
  predicate ValidRole(role: string) { forall i | 0 <= i < |role| :: IsRoleChar(role[i]) }

  function LabelName(role: string, n: nat): string
  {
    "Label_" + role + NatToString(n)
  }

  function LabelDef(role: string, n: nat): string
  {
    LabelName(role, n) + ":"
  }

  /** The counter value of a label defined by `line`, or `None` if `line` defines no label. */
  function LabelOf(line: string): Option<nat>
  {
    if |line| >= 8 && line[0] == 'L' && line[..6] == "Label_" && line[|line| - 1] == ':'
    then NumberAfterRole(line[6..|line| - 1])
    else None
  }

  /** Skips the lower-case role, then reads the counter from the digits that follow. */
  function NumberAfterRole(s: string): Option<nat>
  {
    if |s| > 0 && IsRoleChar(s[0]) then NumberAfterRole(s[1..])
    else if |s| > 0 && AllDigits(s) then Some(ParseNat(s))
    else None
  }

  lemma {:induction false} NumberAfterValidRole(role: string, n: nat)
    requires ValidRole(role)
    ensures NumberAfterRole(role + NatToString(n)) == Some(n)
  {
    var s := role + NatToString(n);
    if |role| > 0 {
      assert s[0] == role[0] && s[1..] == role[1..] + NatToString(n);
      NumberAfterValidRole(role[1..], n);
    } else {
      assert s == NatToString(n);
      assert !IsRoleChar(s[0]);
      NatRoundTrip(n);
    }
  }

  /** A label definition line is recognised, and its counter value is recovered. */
  lemma LabelOfDef(role: string, n: nat)
    requires ValidRole(role)
    ensures LabelOf(LabelDef(role, n)) == Some(n)
  {
    var line := LabelDef(role, n);
    assert line[..6] == "Label_";
    assert line[6..|line| - 1] == role + NatToString(n);
    NumberAfterValidRole(role, n);
  }

  /** Two labels denote the same counter value exactly when their definition lines coincide. */
  lemma LabelDefInjective(r1: string, n1: nat, r2: string, n2: nat)
    requires ValidRole(r1) && ValidRole(r2)
    requires LabelDef(r1, n1) == LabelDef(r2, n2)
    ensures n1 == n2
  {
    LabelOfDef(r1, n1);
    LabelOfDef(r2, n2);
  }

  // ---- uniqueness of the labels defined in a stretch of code ----

  /** The counter values `lo` up to, but excluding, `hi`. */
  function Range(lo: nat, hi: nat): (r: set<nat>)
    ensures forall k :: k in r <==> lo <= k < hi
    decreases hi
  {
    if hi <= lo then {} else Range(lo, hi - 1) + {hi - 1}
  }

  /** Every label defined in `code` carries a counter value from `s`. */
  predicate LabelsWithin(code: seq<string>, s: set<nat>)
  {
    forall i | 0 <= i < |code| && LabelOf(code[i]).Some? :: LabelOf(code[i]).value in s
  }

  /** No two label definitions in `code` share a counter value. */
  predicate LabelsDistinct(code: seq<string>)
  {
    forall i, j | 0 <= i < j < |code| && LabelOf(code[i]).Some? && LabelOf(code[j]).Some? ::
      LabelOf(code[i]).value != LabelOf(code[j]).value
  }

  /** Code whose labels are drawn from disjoint sets can be concatenated without a clash. */
  lemma ConcatLabels(a: seq<string>, sa: set<nat>, b: seq<string>, sb: set<nat>)
    requires LabelsWithin(a, sa) && LabelsDistinct(a)
    requires LabelsWithin(b, sb) && LabelsDistinct(b)
    requires sa !! sb
    ensures LabelsWithin(a + b, sa + sb) && LabelsDistinct(a + b)
  {
    var c := a + b;
    forall i, j | 0 <= i < j < |c| && LabelOf(c[i]).Some? && LabelOf(c[j]).Some?
      ensures LabelOf(c[i]).value != LabelOf(c[j]).value
    {
      if j < |a| {
        assert c[i] == a[i] && c[j] == a[j];
      } else if i >= |a| {
        assert c[i] == b[i - |a|] && c[j] == b[j - |a|];
      } else {
        assert c[i] == a[i] && c[j] == b[j - |a|];
      }
    }
    forall i | 0 <= i < |c| && LabelOf(c[i]).Some?
      ensures LabelOf(c[i]).value in sa + sb
    {
      if i < |a| { assert c[i] == a[i]; } else { assert c[i] == b[i - |a|]; }
    }
  }

  lemma WidenLabels(code: seq<string>, s: set<nat>, t: set<nat>)
    requires LabelsWithin(code, s) && s <= t
    ensures LabelsWithin(code, t)
  {
  }

  /** A single label definition. */
  lemma DefLabels(role: string, n: nat)
    requires ValidRole(role)
    ensures LabelOf(LabelDef(role, n)) == Some(n)
    ensures LabelsWithin([LabelDef(role, n)], {n}) && LabelsDistinct([LabelDef(role, n)])
  {
    LabelOfDef(role, n);
  }

  /**
   * The labels defined in `code` are drawn from the counter values `lo` up to
   * `hi`, each used at most once: what a lowering that moved the counter from
   * `lo` to `hi` may define.
   */
  predicate LabelsFrom(code: seq<string>, lo: nat, hi: nat)
  {
    LabelsWithin(code, Range(lo, hi)) && LabelsDistinct(code)
  }

  /** Code lowered while the counter moved from `lo` to `mid`, then from `mid` to `hi`. */
  lemma ChainLabels(a: seq<string>, lo: nat, mid: nat, b: seq<string>, hi: nat)
    requires lo <= mid <= hi
    requires LabelsFrom(a, lo, mid) && LabelsFrom(b, mid, hi)
    ensures LabelsFrom(a + b, lo, hi)
  {
    ConcatLabels(a, Range(lo, mid), b, Range(mid, hi));
    WidenLabels(a + b, Range(lo, mid) + Range(mid, hi), Range(lo, hi));
  }

  /** A line that is not a label definition: it does not start with `L`. */
  predicate PlainLine(l: string) { |l| > 0 && l[0] != 'L' }

  lemma PlainLines(code: seq<string>, n: nat)
    requires forall i | 0 <= i < |code| :: PlainLine(code[i])
    ensures LabelsFrom(code, n, n)
  {
    assert forall i | 0 <= i < |code| :: LabelOf(code[i]).None?;
  }
}
