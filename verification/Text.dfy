/** ASCII white space. */
module Text {
  predicate IsSpace(c: char) {
    c == ' ' || '\U{0009}' <= c <= '\U{000d}'
  }

  function Trim(s: string): string {
    if s != "" && IsSpace(s[0]) then Trim(s[1..])
    else if s != "" && IsSpace(s[|s| - 1]) then Trim(s[..|s| - 1])
    else s
  }

  lemma {:induction false} TrimmedEnds(s: string)
    requires Trim(s) == s && s != ""
    ensures !IsSpace(s[0]) && !IsSpace(s[|s| - 1])
  {
    var i, j := TrimIsInner(s);
    assert |s[i..j]| == j - i;
  }

  /** By code: the space, and tab, line feed, vertical tab, form feed and carriage return. */
  ghost predicate IsBlank(c: char) {
    var code := c as int;
    code == 32 || code == 9 || code == 10 || code == 11 || code == 12 || code == 13
  }

  /** Trimming cuts blanks off both ends and nothing else. */
  lemma {:induction false} TrimIsInner(s: string) returns (i: nat, j: nat)
    ensures i <= j <= |s| && Trim(s) == s[i..j]
    ensures forall k :: 0 <= k < |s| && !(i <= k < j) ==> IsBlank(s[k])
    ensures i < j ==> !IsBlank(s[i]) && !IsBlank(s[j - 1])
    decreases |s|
  {
    i, j := 0, |s|;
    if s != "" && IsSpace(s[0]) {
      var a, b := TrimIsInner(s[1..]);
      i, j := a + 1, b + 1;
      assert s[1..][a..b] == s[i..j];
      forall k | 0 <= k < |s| && !(i <= k < j)
        ensures IsBlank(s[k])
      {
        if k > 0 {
          assert s[1..][k - 1] == s[k];
        }
      }
    } else if s != "" && IsSpace(s[|s| - 1]) {
      var front := s[..|s| - 1];
      i, j := TrimIsInner(front);
      assert front[i..j] == s[i..j];
      forall k | 0 <= k < |s| && !(i <= k < j)
        ensures IsBlank(s[k])
      {
        if k < |front| {
          assert front[k] == s[k];
        }
      }
    } else {
      assert s[0..|s|] == s;
    }
  }

  /** Blanks around a text do not matter to it. */
  lemma {:induction false} TrimIgnores(c: char, s: string)
    requires IsBlank(c)
    ensures Trim([c] + s) == Trim(s) && Trim(s + [c]) == Trim(s)
    decreases |s|
  {
    assert ([c] + s)[1..] == s;
    if s == "" {
      assert s + [c] == [c] && [c][1..] == "";
    } else if IsSpace(s[0]) {
      TrimIgnores(c, s[1..]);
      assert (s + [c])[1..] == s[1..] + [c];
    } else {
      assert (s + [c])[..|s + [c]| - 1] == s;
    }
  }
}
