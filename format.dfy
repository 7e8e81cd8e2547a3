/**
 * The part of Python's string formatting that the info text of a galaxy
 * uses: the format spec `>W.Ps` applied to a string, which keeps at most P
 * characters and then right-aligns them with spaces in a field of width W.
 */
module Format {

  function Min(a: int, b: int): int
  {
    if a <= b then a else b
  }

  function Max(a: int, b: int): int
  {
    if a <= b then b else a
  }

  /** `n` space characters: the default fill of an aligned field. */
  function Spaces(n: nat): (s: string)
    ensures |s| == n
    ensures forall k :: 0 <= k < n ==> s[k] == ' '
  {
    if n == 0 then "" else " " + Spaces(n - 1)
  }

  /** The precision part `.P` of a string format spec. */
  function Truncate(s: string, precision: nat): (t: string)
    ensures |t| == Min(|s|, precision)
    ensures t <= s
  {
    s[..Min(|s|, precision)]
  }

  /** The alignment part `>W` of a format spec, with the default fill. */
  function AlignRight(s: string, width: nat): (t: string)
    ensures |t| == Max(|s|, width)
    ensures t[|t| - |s|..] == s
    ensures forall k :: 0 <= k < |t| - |s| ==> t[k] == ' '
  {
    if |s| < width then Spaces(width - |s|) + s else s
  }

  /** A string formatted with the spec `>width.precision s`. */
  function FormatString(s: string, width: nat, precision: nat): (t: string)
    ensures |t| == Max(Min(|s|, precision), width)
    ensures t[|t| - Min(|s|, precision)..] == s[..Min(|s|, precision)]
    ensures forall k :: 0 <= k < |t| - Min(|s|, precision) ==> t[k] == ' '
  {
    AlignRight(Truncate(s, precision), width)
  }

  /** `s` without its leading spaces (Python's `s.lstrip(" ")`). */
  function TrimLeft(s: string): (t: string)
    ensures |t| <= |s| && t == s[|s| - |t|..]
    ensures t == "" || t[0] != ' '
  {
    if |s| > 0 && s[0] == ' ' then TrimLeft(s[1..]) else s
  }

  /** Leading spaces make no difference once they are trimmed. */
  lemma {:induction false} TrimLeftAfterSpaces(pad: string, s: string)
    requires forall k :: 0 <= k < |pad| ==> pad[k] == ' '
    ensures TrimLeft(pad + s) == TrimLeft(s)
  {
    if |pad| > 0 {
      assert (pad + s)[0] == ' ';
      assert (pad + s)[1..] == pad[1..] + s;
      TrimLeftAfterSpaces(pad[1..], s);
    } else {
      assert pad + s == s;
    }
  }

  /** A string that does not start with a space is its own trimming. */
  lemma TrimLeftNoLeadingSpace(s: string)
    requires s == "" || s[0] != ' '
    ensures TrimLeft(s) == s
  {
  }
}
