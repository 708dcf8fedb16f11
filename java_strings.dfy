/** Java's String.trim, which strips every character at or below U+0020 from both ends. */
module JavaStrings {

  /** Every character of `s` is one that trim removes. */
  predicate Blank(s: string) {
    forall i :: 0 <= i < |s| ==> s[i] <= ' '
  }

  /** The forward scan of trim: the first index at or after `from` holding a character above U+0020, or |s|. */
  function ScanStart(s: string, from: nat): (k: nat)
    requires from <= |s|
    ensures from <= k <= |s|
    ensures forall i :: from <= i < k ==> s[i] <= ' '
    ensures k < |s| ==> s[k] > ' '
    decreases |s| - from
  {
    if from < |s| && s[from] <= ' ' then ScanStart(s, from + 1) else from
  }

  /** The backward scan of trim: the end index, no lower than `start`, after which only characters at or below U+0020 remain. */
  function ScanEnd(s: string, start: nat, end: nat): (k: nat)
    requires start <= end <= |s|
    ensures start <= k <= end
    ensures forall i :: k <= i < end ==> s[i] <= ' '
    ensures k > start ==> s[k - 1] > ' '
    decreases end
  {
    if start < end && s[end - 1] <= ' ' then ScanEnd(s, start, end - 1) else end
  }

  /** The index of the first character of `s` above U+0020, or |s| when there is none. */
  function FirstNonBlank(s: string): (k: nat)
    ensures k <= |s|
  {
    ScanStart(s, 0)
  }

  /**
   * String.trim: the infix of `s` that starts at its first character above U+0020
   * and leaves only characters at or below U+0020 after it; it is empty exactly
   * when `s` is blank, and otherwise starts and ends with a character above U+0020.
   */
  function Trim(s: string): (r: string)
    ensures FirstNonBlank(s) + |r| <= |s|
    ensures forall i :: 0 <= i < FirstNonBlank(s) ==> s[i] <= ' '
    ensures forall i :: 0 <= i < |r| ==> r[i] == s[FirstNonBlank(s) + i]
    ensures forall i :: FirstNonBlank(s) + |r| <= i < |s| ==> s[i] <= ' '
    ensures r == [] <==> Blank(s)
    ensures r != [] ==> r[0] > ' ' && r[|r| - 1] > ' '
  {
    var start := ScanStart(s, 0);
    var end := ScanEnd(s, start, |s|);
    assert start < |s| ==> end > start;
    s[start..end]
  }

  /** Trimming a trimmed string changes nothing. */
  lemma TrimIdempotent(s: string)
    ensures Trim(Trim(s)) == Trim(s)
  {
    var r := Trim(s);
    if r != [] {
      assert ScanStart(r, 0) == 0;
      assert ScanEnd(r, 0, |r|) == |r|;
      assert r[0..|r|] == r;
    }
  }
}
