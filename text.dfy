/**
 * The part of JavaScript's String.prototype.trim the chat view relies on:
 * whether a string is empty once leading and trailing white space and line
 * terminators are removed.
 */
module Text {

  /** ECMAScript WhiteSpace and LineTerminator code points: what trim removes. */
  predicate IsTrimmable(c: char) {
    || c in {'\t', '\n', '\U{000B}', '\U{000C}', '\r', ' ', '\U{00A0}', '\U{1680}'}
    || ('\U{2000}' <= c <= '\U{200A}')
    || c in {'\U{2028}', '\U{2029}', '\U{202F}', '\U{205F}', '\U{3000}', '\U{FEFF}'}
  }

  /** Every character of s is removed by trim. */
  predicate IsBlank(s: string) {
    forall i :: 0 <= i < |s| ==> IsTrimmable(s[i])
  }

  /**
   * String.prototype.trim: leading and trailing trimmable characters are
   * removed; what remains neither starts nor ends with one.
   */
  function Trim(s: string): (r: string)
    ensures |r| <= |s|
    ensures r == [] <==> IsBlank(s)
    ensures r != [] ==> !IsTrimmable(r[0]) && !IsTrimmable(r[|r| - 1])
    decreases |s|
  {
    if s == [] then s
    else if IsTrimmable(s[0]) then
      var r := Trim(s[1..]);
      assert IsBlank(s[1..]) ==> IsBlank(s) by {
        if IsBlank(s[1..]) {
          forall i | 0 <= i < |s| ensures IsTrimmable(s[i]) {
            if i > 0 { assert s[i] == s[1..][i - 1]; }
          }
        }
      }
      r
    else if IsTrimmable(s[|s| - 1]) then
      var r := Trim(s[..|s| - 1]);
      assert !IsBlank(s[..|s| - 1]) by { assert s[..|s| - 1][0] == s[0]; }
      r
    else s
  }

  /** A trimmable character in front of a blank string leaves it blank. */
  lemma BlankCons(c: char, t: string)
    requires IsTrimmable(c) && IsBlank(t)
    ensures IsBlank([c] + t)
  {
    forall k | 0 <= k < |[c] + t| ensures IsTrimmable(([c] + t)[k]) {
      if k > 0 { assert ([c] + t)[k] == t[k - 1]; }
    }
  }

  /** A trimmable character after a blank string leaves it blank. */
  lemma BlankSnoc(t: string, c: char)
    requires IsTrimmable(c) && IsBlank(t)
    ensures IsBlank(t + [c])
  {
    forall k | 0 <= k < |t + [c]| ensures IsTrimmable((t + [c])[k]) {
      if k < |t| { assert (t + [c])[k] == t[k]; }
    }
  }

  /** Trim skips a leading trimmable character: the slice of the rest, shifted by one. */
  lemma SliceAfterFront(s: string, i: nat, j: nat)
    requires s != [] && IsTrimmable(s[0]) && i <= j <= |s| - 1
    requires Trim(s[1..]) == s[1..][i..j] && IsBlank(s[1..][..i]) && IsBlank(s[1..][j..])
    ensures Trim(s) == s[i + 1..j + 1] && IsBlank(s[..i + 1]) && IsBlank(s[j + 1..])
  {
    var t := s[1..];
    assert t[i..j] == s[i + 1..j + 1];
    assert s[..i + 1] == [s[0]] + t[..i];
    BlankCons(s[0], t[..i]);
    assert s[j + 1..] == t[j..];
  }

  /** Trim drops a trailing trimmable character when the first one stays. */
  lemma TrimDropsLast(s: string)
    requires s != [] && !IsTrimmable(s[0]) && IsTrimmable(s[|s| - 1])
    ensures Trim(s) == Trim(s[..|s| - 1])
  {
  }

  /** A blank prefix of s without its last character is a blank prefix of s. */
  lemma BlankPrefixOfInit(s: string, i: nat)
    requires i <= |s| - 1 && IsBlank(s[..|s| - 1][..i])
    ensures IsBlank(s[..i])
  {
    assert s[..i] == s[..|s| - 1][..i];
  }

  /** A blank suffix of s without its trimmable last character grows to a blank suffix of s. */
  lemma BlankSuffixOfInit(s: string, j: nat)
    requires s != [] && IsTrimmable(s[|s| - 1])
    requires j <= |s| - 1 && IsBlank(s[..|s| - 1][j..])
    ensures IsBlank(s[j..])
  {
    assert s[j..] == s[..|s| - 1][j..] + [s[|s| - 1]];
    BlankSnoc(s[..|s| - 1][j..], s[|s| - 1]);
  }

  /** Trim drops a trailing trimmable character: the slice of the rest, with the character added to the suffix. */
  lemma SliceAfterBack(s: string, i: nat, j: nat)
    requires s != [] && !IsTrimmable(s[0]) && IsTrimmable(s[|s| - 1]) && i <= j <= |s| - 1
    requires Trim(s[..|s| - 1]) == s[..|s| - 1][i..j]
    requires IsBlank(s[..|s| - 1][..i]) && IsBlank(s[..|s| - 1][j..])
    ensures Trim(s) == s[i..j] && IsBlank(s[..i]) && IsBlank(s[j..])
  {
    TrimDropsLast(s);
    assert s[..|s| - 1][i..j] == s[i..j];
    BlankPrefixOfInit(s, i);
    BlankSuffixOfInit(s, j);
  }

  /**
   * What trim returns is the input with a blank prefix and a blank suffix
   * cut off: the slice s[i..j], with s[..i] and s[j..] blank.
   */
  lemma {:induction false} TrimIsSlice(s: string) returns (i: nat, j: nat)
    ensures i <= j <= |s|
    ensures Trim(s) == s[i..j]
    ensures IsBlank(s[..i]) && IsBlank(s[j..])
    decreases |s|
  {
    if s == [] {
      i, j := 0, 0;
    } else if IsTrimmable(s[0]) {
      var i', j' := TrimIsSlice(s[1..]);
      SliceAfterFront(s, i', j');
      i, j := i' + 1, j' + 1;
    } else if IsTrimmable(s[|s| - 1]) {
      i, j := TrimIsSlice(s[..|s| - 1]);
      SliceAfterBack(s, i, j);
    } else {
      i, j := 0, |s|;
      assert s[i..j] == s;
    }
  }
}
