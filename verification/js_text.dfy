/** The string operations the components use to abbreviate wallet addresses and
    transaction hashes, with JavaScript's `String.prototype.slice` semantics:
    negative indices count from the end, and indices past either end are
    clamped, so a short string is never an error. */
module JsText {

  function Min(a: int, b: int): int
  {
    if a <= b then a else b
  }

  /** How `slice` turns a relative index into a position in a string of length
      `len`: a negative index counts back from the end, and the result is
      clamped to 0..len. */
  function ResolveIndex(i: int, len: nat): (r: nat)
    ensures r <= len
    ensures 0 <= i ==> r == Min(i, len)
    ensures i < 0 && len + i >= 0 ==> r == len + i
    ensures i < 0 && len + i < 0 ==> r == 0
  {
    if i < 0 then (if len + i < 0 then 0 else len + i)
    else Min(i, len)
  }

  /** `s.slice(begin, end)`: the characters between the two resolved indices, or
      the empty string when they cross. */
  function Slice(s: string, begin: int, end: int): (r: string)
    ensures |r| <= |s|
    ensures 0 <= begin <= end <= |s| ==> r == s[begin..end]
    ensures 0 <= end <= begin ==> r == []
    ensures begin < 0 && end == |s| ==> r == s[|s| - Min(-begin, |s|)..]
  {
    var from := ResolveIndex(begin, |s|);
    var to := ResolveIndex(end, |s|);
    if from < to then s[from..to] else []
  }

  /** `s.slice(0, head) + "..." + s.slice(-tail)`, the abbreviation every
      component uses for addresses and hashes. */
  function Abbreviate(s: string, head: nat, tail: nat): (r: string)
    requires 0 < tail
    ensures r == s[..Min(head, |s|)] + "..." + s[|s| - Min(tail, |s|)..]
    ensures |r| == Min(head, |s|) + 3 + Min(tail, |s|)
    ensures head + tail <= |s| ==> r == s[..head] + "..." + s[|s| - tail..]
    ensures |s| <= head && |s| <= tail ==> r == s + "..." + s
  {
    Slice(s, 0, head) + "..." + Slice(s, -(tail as int), |s|)
  }

  /** A wallet address as a consent card and the patient detail show it: its
      first six and last four characters. */
  function WalletLabel(address: string): (r: string)
    ensures |address| >= 10 ==> r == address[..6] + "..." + address[|address| - 4..]
    ensures |address| <= 4 ==> r == address + "..." + address
  {
    Abbreviate(address, 6, 4)
  }
}
