/**
 * The two JavaScript string built-ins the chat handler relies on:
 * `String.prototype.trim` and `Array.prototype.join` over strings.
 */
module JsStrings {

  /**
   * The code points ECMAScript counts as WhiteSpace or LineTerminator,
   * which are exactly what `trim` strips: TAB, VT, FF, SPACE, NBSP,
   * ZWNBSP, the other space separators (category Zs), LF, CR, LS and PS.
   */
  predicate IsJsWhitespace(c: char) {
    c == '\t' || c == '\U{000B}' || c == '\U{000C}' || c == ' ' || c == '\U{00A0}' || c == '\U{FEFF}'
    || c == '\U{1680}' || ('\U{2000}' <= c <= '\U{200A}') || c == '\U{202F}' || c == '\U{205F}' || c == '\U{3000}'
    || c == '\n' || c == '\r' || c == '\U{2028}' || c == '\U{2029}'
  }

  /** Every character of `s` is whitespace (the empty string included). */
  predicate IsBlank(s: string) {
    forall i :: 0 <= i < |s| ==> IsJsWhitespace(s[i])
  }

  /** `s` with its leading whitespace removed: the longest suffix that does not start with whitespace. */
  function TrimStart(s: string): (r: string)
    ensures |r| <= |s| && r == s[|s| - |r|..]
    ensures r == [] || !IsJsWhitespace(r[0])
    ensures forall i :: 0 <= i < |s| - |r| ==> IsJsWhitespace(s[i])
  {
    if |s| > 0 && IsJsWhitespace(s[0]) then TrimStart(s[1..]) else s
  }

  /** `s` with its trailing whitespace removed: the longest prefix that does not end with whitespace. */
  function TrimEnd(s: string): (r: string)
    ensures |r| <= |s| && r == s[..|r|]
    ensures r == [] || !IsJsWhitespace(r[|r| - 1])
    ensures forall i :: |r| <= i < |s| ==> IsJsWhitespace(s[i])
  {
    if |s| > 0 && IsJsWhitespace(s[|s| - 1]) then TrimEnd(s[..|s| - 1]) else s
  }

  /** `s.trim()`: both ends stripped. */
  function Trim(s: string): string {
    TrimEnd(TrimStart(s))
  }

  /** `s.trim()` is empty exactly when `s` is empty or whitespace only. */
  lemma TrimEmptyIffBlank(s: string)
    ensures |Trim(s)| == 0 <==> IsBlank(s)
  {
  }

  /** `s.trim()` carries no whitespace at either end, and is a contiguous piece of `s`. */
  lemma TrimProperties(s: string)
    ensures Trim(s) == [] || (!IsJsWhitespace(Trim(s)[0]) && !IsJsWhitespace(Trim(s)[|Trim(s)| - 1]))
    ensures |Trim(s)| <= |s|
    ensures s[|s| - |TrimStart(s)|..][..|Trim(s)|] == Trim(s)
  {
  }

  /** `pieces.join(sep)`: the pieces in order with `sep` between consecutive ones. */
  function Join(pieces: seq<string>, sep: string): string {
    if |pieces| == 0 then ""
    else if |pieces| == 1 then pieces[0]
    else pieces[0] + sep + Join(pieces[1..], sep)
  }

  /** The summed length of all pieces. */
  function TotalLength(pieces: seq<string>): nat {
    if pieces == [] then 0 else |pieces[0]| + TotalLength(pieces[1..])
  }

  /** Where piece `k` starts in `Join(pieces, sep)`: after the earlier pieces and `k` separators. */
  function PieceOffset(pieces: seq<string>, sep: string, k: nat): nat
    requires k <= |pieces|
  {
    TotalLength(pieces[..k]) + k * |sep|
  }

  /** Joining two non-empty lists is joining each and putting one separator between. */
  lemma {:induction false} JoinAppend(xs: seq<string>, ys: seq<string>, sep: string)
    requires |xs| > 0 && |ys| > 0
    ensures Join(xs + ys, sep) == Join(xs, sep) + sep + Join(ys, sep)
  {
    if |xs| == 1 {
      assert (xs + ys)[1..] == ys;
    } else {
      assert (xs + ys)[1..] == xs[1..] + ys;
      JoinAppend(xs[1..], ys, sep);
    }
  }

  /** `n >= 1` pieces join to their total length plus exactly `n - 1` separators. */
  lemma {:induction false} JoinLength(pieces: seq<string>, sep: string)
    requires |pieces| > 0
    ensures |Join(pieces, sep)| == TotalLength(pieces) + (|pieces| - 1) * |sep|
  {
    if |pieces| > 1 {
      JoinLength(pieces[1..], sep);
    } else {
      assert pieces[1..] == [];
    }
  }

  lemma {:induction false} TotalLengthPrefix(pieces: seq<string>, k: nat)
    requires 0 < k <= |pieces|
    ensures TotalLength(pieces[..k]) == |pieces[0]| + TotalLength(pieces[1..][..k - 1])
  {
    assert pieces[..k][1..] == pieces[1..][..k - 1];
  }

  /** A join of two or more pieces is the first piece, a separator, then the join of the rest. */
  lemma JoinHead(pieces: seq<string>, sep: string)
    requires |pieces| > 1
    ensures var j := Join(pieces, sep); var h := |pieces[0]| + |sep|;
      h <= |j| && j[..|pieces[0]|] == pieces[0] && j[|pieces[0]|..h] == sep && j[h..] == Join(pieces[1..], sep)
  {
  }

  lemma SliceOfSuffix(j: string, h: nat, o: nat, n: nat)
    requires h + o + n <= |j|
    ensures j[h + o..h + o + n] == j[h..][o..o + n]
  {
  }

  /**
   * Piece `k` of `pieces` sits in `Join(pieces, sep)` at `PieceOffset(pieces, sep, k)`,
   * and, unless it is the last piece, a separator follows it immediately.
   */
  lemma {:induction false} JoinPieceAt(pieces: seq<string>, sep: string, k: nat)
    requires k < |pieces|
    ensures var o := PieceOffset(pieces, sep, k);
      var j := Join(pieces, sep);
      o + |pieces[k]| <= |j| && j[o..o + |pieces[k]|] == pieces[k]
      && (k + 1 < |pieces| ==> o + |pieces[k]| + |sep| <= |j| && j[o + |pieces[k]|..o + |pieces[k]| + |sep|] == sep)
  {
    assert pieces[..0] == [];
    if |pieces| == 1 {
    } else if k == 0 {
      JoinHead(pieces, sep);
    } else {
      var j := Join(pieces, sep);
      var rest := pieces[1..];
      var h := |pieces[0]| + |sep|;
      var o := PieceOffset(rest, sep, k - 1);
      var n := |pieces[k]|;
      JoinPieceAt(rest, sep, k - 1);
      TotalLengthPrefix(pieces, k);
      JoinHead(pieces, sep);
      assert PieceOffset(pieces, sep, k) == h + o;
      SliceOfSuffix(j, h, o, n);
      if k + 1 < |pieces| {
        SliceOfSuffix(j, h, o + n, |sep|);
      }
    }
  }
}
