/**
 * The pure helpers of the front end: `truncate` and the status colour
 * classes.
 */
module Utils {
  import opened Types
  import opened Text

  /** Where `slice(0, end)` stops on a string of length `len`: a negative end counts from the back. */
  function SliceEnd(len: nat, end: int): (k: nat)
    ensures k <= len
    ensures 0 <= end <= len ==> k == end
    ensures end < 0 ==> k == if len + end < 0 then 0 else len + end
  {
    if end < 0 then (if len + end < 0 then 0 else len + end)
    else if end > len then len
    else end
  }

  /** `truncate(str, maxLength)`. */
  function Truncate(s: string, maxLength: int): (r: string)
    ensures |s| <= maxLength ==> r == s
    ensures 0 <= maxLength < |s| ==> r == s[..maxLength] + "..." && |r| == maxLength + 3
    ensures |s| > maxLength ==> |r| == SliceEnd(|s|, maxLength) + 3 && r[|r| - 3..] == "..."
    ensures |s| > maxLength ==> r[..|r| - 3] == s[..SliceEnd(|s|, maxLength)]
  {
    if |s| <= maxLength then s else s[..SliceEnd(|s|, maxLength)] + "..."
  }

  /** With a non-negative bound, truncating twice is truncating once. */
  lemma TruncateIdempotent(s: string, maxLength: int)
    requires maxLength >= 0
    ensures Truncate(Truncate(s, maxLength), maxLength) == Truncate(s, maxLength)
  {
    if |s| > maxLength {
      var r := Truncate(s, maxLength);
      assert r[..maxLength] == s[..maxLength];
    }
  }

  /**
   * A negative bound counts from the back, so the result is always cut and
   * never idempotent in general: with a bound of -1 or -2 a second call
   * makes the string longer.
   */
  lemma TruncateNegativeBoundGrows(s: string, maxLength: int)
    requires -3 < maxLength < 0
    ensures |Truncate(Truncate(s, maxLength), maxLength)| == |Truncate(s, maxLength)| + maxLength + 3
    ensures |Truncate(Truncate(s, maxLength), maxLength)| > |Truncate(s, maxLength)|
  {
  }

  const NeutralClass: string := "bg-neutral-100 text-neutral-800"
  const PendingClass: string := "bg-warning-100 text-warning-800"
  const ApprovedClass: string := "bg-success-100 text-success-800"
  const RejectedClass: string := "bg-error-100 text-error-800"
  const ProcessingClass: string := "bg-primary-100 text-primary-800"
  const CompletedClass: string := "bg-secondary-100 text-secondary-800"

  /** The class for a lower-cased key; anything unrecognised gets the neutral class. */
  function ColorOfKey(key: string): string
  {
    if key == "draft" then NeutralClass
    else if key == "pending" then PendingClass
    else if key == "approved" then ApprovedClass
    else if key == "rejected" then RejectedClass
    else if key == "processing" then ProcessingClass
    else if key == "completed" then CompletedClass
    else NeutralClass
  }

  /** `getStatusColor(status)`: lower-case the argument, then match. */
  function StatusColor(status: string): string
  {
    ColorOfKey(Lower(status))
  }

  /** The colour ignores case. */
  lemma StatusColorIgnoresCase(status: string)
    ensures StatusColor(Lower(status)) == StatusColor(status)
  {
    LowerIdempotent(status);
  }

  lemma LowerOfStatusName(s: Status)
    ensures Lower(StatusName(s)) == StatusName(s)
  {
    var n := StatusName(s);
    forall i | 0 <= i < |n|
      ensures Lower(n)[i] == n[i]
    {
      assert 'a' <= n[i] <= 'z';
    }
  }

  /** The six statuses get six different classes. */
  lemma StatusColorsDistinct(s: Status, t: Status)
    requires s != t
    ensures StatusColor(StatusName(s)) != StatusColor(StatusName(t))
  {
    LowerOfStatusName(s);
    LowerOfStatusName(t);
  }

  /** A value that is not a status name in any case gets the neutral class, the same as `draft`. */
  lemma UnknownStatusIsNeutral(status: string)
    requires Lower(status) !in StatusNames
    ensures StatusColor(status) == NeutralClass
    ensures StatusColor(status) == StatusColor(StatusName(Draft))
  {
    LowerOfStatusName(Draft);
  }
}
