/**
 * The string primitives the screens and validators use, restricted to ASCII:
 * JavaScript's trim(), \s and toLowerCase() also know Unicode white space and
 * letters, which this model does not.
 */
module Text {

  /** Space, tab, line feed, vertical tab, form feed and carriage return. */
  predicate IsSpace(c: char) {
    c == ' ' || '\t' <= c <= '\r'
  }

  predicate IsDigit(c: char) {
    '0' <= c <= '9'
  }

  predicate IsLower(c: char) {
    'a' <= c <= 'z'
  }

  predicate IsUpper(c: char) {
    'A' <= c <= 'Z'
  }

  /** A string that trim() turns into the empty, falsy string. */
  predicate IsBlank(s: string) {
    forall i :: 0 <= i < |s| ==> IsSpace(s[i])
  }

  function TrimStart(s: string): (r: string)
    ensures |r| <= |s| && r == s[|s| - |r|..]
    ensures r == [] || !IsSpace(r[0])
    ensures forall k :: 0 <= k < |s| - |r| ==> IsSpace(s[k])
  {
    if s != [] && IsSpace(s[0]) then TrimStart(s[1..]) else s
  }

  function TrimEnd(s: string): (r: string)
    ensures |r| <= |s| && r == s[..|r|]
    ensures r == [] || !IsSpace(r[|r| - 1])
    ensures forall k :: |r| <= k < |s| ==> IsSpace(s[k])
  {
    if s != [] && IsSpace(s[|s| - 1]) then TrimEnd(s[..|s| - 1]) else s
  }

  /** Every character of `s` outside the run of `len` characters at `start` is white space. */
  predicate BlankOutside(s: string, start: int, len: int) {
    forall k | 0 <= k < |s| && !(start <= k < start + len) :: IsSpace(s[k])
  }

  /** String.prototype.trim: the text between the leading and the trailing white space. */
  function Trim(s: string): (r: string)
    ensures r == [] <==> IsBlank(s)
    ensures r != [] ==> !IsSpace(r[0]) && !IsSpace(r[|r| - 1])
    ensures |r| <= |s|
  {
    var front := TrimStart(s);
    var r := TrimEnd(front);
    assert r == [] ==> IsBlank(s) by {
      if r == [] {
        forall k | 0 <= k < |s| ensures IsSpace(s[k]) {
          if k >= |s| - |front| {
            assert s[k] == front[k - (|s| - |front|)];
          }
        }
      }
    }
    r
  }

  /**
   * Trim keeps one contiguous run of its input and drops only white space on
   * either side of it.
   */
  lemma {:induction false} TrimKeepsMiddle(s: string)
    ensures exists a | 0 <= a <= |s| - |Trim(s)| :: Trim(s) == s[a..a + |Trim(s)|] && BlankOutside(s, a, |Trim(s)|)
  {
    var front := TrimStart(s);
    var a := |s| - |front|;
    var r := TrimEnd(front);
    assert front == s[a..];
    forall k | 0 <= k < |s| && !(a <= k < a + |r|) ensures IsSpace(s[k]) {
      if k >= a {
        assert s[k] == front[k - a];
      }
    }
    assert Trim(s) == r;
    assert r == s[a..a + |r|] && BlankOutside(s, a, |r|);
  }

  function LowerChar(c: char): char {
    if IsUpper(c) then (c as int + 32) as char else c
  }

  /** String.prototype.toLowerCase on ASCII letters. */
  function ToLower(s: string): (r: string)
    ensures |r| == |s|
    ensures forall i :: 0 <= i < |s| ==> !IsUpper(r[i]) && (IsUpper(s[i]) || r[i] == s[i])
    ensures forall i :: 0 <= i < |s| && IsUpper(s[i]) ==> r[i] == (s[i] as int + 32) as char
  {
    seq(|s|, i requires 0 <= i < |s| => LowerChar(s[i]))
  }

  /** Lowering twice is lowering once. */
  lemma ToLowerIdempotent(s: string)
    ensures ToLower(ToLower(s)) == ToLower(s)
  {
    forall i | 0 <= i < |s| ensures ToLower(ToLower(s))[i] == ToLower(s)[i] {
      assert !IsUpper(ToLower(s)[i]);
    }
  }

  /** Lowering and trimming commute, because lowering never turns white space into text or back. */
  lemma {:induction false} TrimStartLower(s: string)
    ensures TrimStart(ToLower(s)) == ToLower(TrimStart(s))
    decreases |s|
  {
    if s != [] {
      assert ToLower(s)[1..] == ToLower(s[1..]);
      assert IsSpace(ToLower(s)[0]) <==> IsSpace(s[0]);
      TrimStartLower(s[1..]);
    }
  }

  lemma {:induction false} TrimEndLower(s: string)
    ensures TrimEnd(ToLower(s)) == ToLower(TrimEnd(s))
    decreases |s|
  {
    if s != [] {
      assert ToLower(s)[..|s| - 1] == ToLower(s[..|s| - 1]);
      assert IsSpace(ToLower(s)[|s| - 1]) <==> IsSpace(s[|s| - 1]);
      TrimEndLower(s[..|s| - 1]);
    }
  }

  lemma TrimLower(s: string)
    ensures Trim(ToLower(s)) == ToLower(Trim(s))
  {
    TrimStartLower(s);
    TrimEndLower(TrimStart(s));
  }

  predicate OccursAt(hay: string, needle: string, i: int) {
    0 <= i <= |hay| - |needle| && hay[i..i + |needle|] == needle
  }

  /** String.prototype.includes: `needle` occurs somewhere in `hay` as a contiguous run. */
  predicate Contains(hay: string, needle: string) {
    exists i | 0 <= i <= |hay| - |needle| :: OccursAt(hay, needle, i)
  }

  /** The empty string contains only the empty string. */
  lemma EmptyContainsOnlyEmpty(needle: string)
    ensures Contains("", needle) <==> needle == ""
  {
    if needle == "" {
      assert OccursAt("", needle, 0);
    }
  }
}
