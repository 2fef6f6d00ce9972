/** Whitespace trimming as the controller uses it to decide whether a colour
    field holds anything: the JavaScript `String.prototype.trim` behaviour,
    over the fixed set of code points ECMAScript counts as white space or
    line terminators. */
module Text {

  /** ECMAScript WhiteSpace (TAB, VT, FF, SP, NBSP, ZWNBSP and the Unicode
      space separators) and LineTerminator (LF, CR, LS, PS) code points. */
  predicate IsWhitespace(c: char) {
    || c == '\t' || c == '\n' || c == '\U{B}' || c == '\U{C}' || c == '\r'
    || c == ' ' || c == '\U{A0}' || c == '\U{1680}'
    || ('\U{2000}' <= c <= '\U{200A}')
    || c == '\U{2028}' || c == '\U{2029}' || c == '\U{202F}' || c == '\U{205F}'
    || c == '\U{3000}' || c == '\U{FEFF}'
  }

  /** Every character of `s` is white space (true of ""). */
  ghost predicate AllWhitespace(s: string) {
    forall i :: 0 <= i < |s| ==> IsWhitespace(s[i])
  }

  /** `s` holds `r` starting at index `k`. */
  ghost predicate SliceAt(s: string, k: int, r: string) {
    0 <= k <= |s| - |r| && s[k..k + |r|] == r
  }

  /** `r` is `s` with white space cut from its ends: it sits in `s` at `k`,
      and everything before and after it is white space. */
  ghost predicate TrimmedAt(s: string, k: int, r: string) {
    && SliceAt(s, k, r)
    && (forall i :: 0 <= i < k ==> IsWhitespace(s[i]))
    && (forall i :: k + |r| <= i < |s| ==> IsWhitespace(s[i]))
  }

  /** The index of the first non-white-space character of `s` at or after
      `from`, or |s| when there is none. */
  function FirstVisible(s: string, from: nat): (r: nat)
    requires from <= |s|
    ensures from <= r <= |s|
    ensures forall i :: from <= i < r ==> IsWhitespace(s[i])
    ensures r < |s| ==> !IsWhitespace(s[r])
    decreases |s| - from
  {
    if from == |s| || !IsWhitespace(s[from]) then from else FirstVisible(s, from + 1)
  }

  /** One past the index of the last non-white-space character of `s` before
      `upto`, or 0 when there is none. */
  function LastVisibleEnd(s: string, upto: nat): (r: nat)
    requires upto <= |s|
    ensures r <= upto
    ensures forall i :: r <= i < upto ==> IsWhitespace(s[i])
    ensures r > 0 ==> !IsWhitespace(s[r - 1])
  {
    if upto == 0 || !IsWhitespace(s[upto - 1]) then upto else LastVisibleEnd(s, upto - 1)
  }

  /** `String.prototype.trim`: the slice of `s` left once the white space at
      both ends is removed. Only white space is cut off; the result is empty
      exactly when `s` is all white space, and otherwise starts and ends with
      a non-white-space character. TrimDetermined shows these facts leave no
      other result. */
  function Trim(s: string): (r: string)
    ensures |r| <= |s|
    ensures r == [] <==> AllWhitespace(s)
    ensures r == [] || (!IsWhitespace(r[0]) && !IsWhitespace(r[|r| - 1]))
    ensures exists k :: TrimmedAt(s, k, r)
  {
    var a := FirstVisible(s, 0);
    var b := LastVisibleEnd(s, |s|);
    if a < b then
      assert TrimmedAt(s, a, s[a..b]);
      s[a..b]
    else
      assert TrimmedAt(s, 0, []);
      []
  }

  /** Any slice of `s` that is cut from it by removing only white space, and
      that is empty or has no white space at either end, is Trim(s). */
  lemma TrimDetermined(s: string, k: int, r: string)
    requires TrimmedAt(s, k, r)
    requires r == [] || (!IsWhitespace(r[0]) && !IsWhitespace(r[|r| - 1]))
    ensures r == Trim(s)
  {
    var t := Trim(s);
    var j :| TrimmedAt(s, j, t);
    if r == [] {
      forall i | 0 <= i < |s| ensures IsWhitespace(s[i]) {
        if i >= k { assert k + |r| <= i; }
      }
    } else if t != [] {
      assert r[0] == s[k] && t[0] == s[j];
      assert r[|r| - 1] == s[k + |r| - 1] && t[|t| - 1] == s[j + |t| - 1];
      assert k == j;
      assert k + |r| == j + |t|;
    }
  }

  /** A colour field counts as "entered" when it is non-blank after trimming;
      that is, when it holds at least one non-white-space character. */
  predicate IsEntered(color: string)
    ensures IsEntered(color) <==> exists i :: 0 <= i < |color| && !IsWhitespace(color[i])
  {
    Trim(color) != ""
  }

  /** Trimming twice is trimming once. */
  lemma TrimIdempotent(s: string)
    ensures Trim(Trim(s)) == Trim(s)
  {
  }

  /** A string with no white space at either end is its own trim. */
  lemma TrimKeepsTrimmed(s: string)
    requires s != [] && !IsWhitespace(s[0]) && !IsWhitespace(s[|s| - 1])
    ensures Trim(s) == s
  {
  }
}
