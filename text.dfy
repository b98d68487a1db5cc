/**
 * The two Python string methods the agent workflow applies to model replies:
 * `str.strip()` with no argument and `str.lower()`.
 *
 * Both are modelled over ASCII only: whitespace is what `str.isspace` accepts
 * among code points 0..127 (9..13 and 28..32), and case folding maps `A`..`Z`
 * to `a`..`z`. Every other character is left as it is.
 */
module Text {

  /** `str.isspace` on one ASCII character: TAB, LF, VT, FF, CR, the four
      information separators 28..31 and SPACE. */
  predicate IsSpace(c: char) {
    9 <= c as int <= 13 || 28 <= c as int <= 32
  }

  predicate AllSpace(s: string) {
    forall i :: 0 <= i < |s| ==> IsSpace(s[i])
  }

  /** No whitespace at either end: what `strip()` leaves behind. */
  predicate IsTrimmed(s: string) {
    s == [] || (!IsSpace(s[0]) && !IsSpace(s[|s| - 1]))
  }

  predicate IsUpper(c: char) {
    'A' <= c <= 'Z'
  }

  /** `str.lstrip()`: drops the longest all-whitespace prefix. */
  function LStrip(s: string): string {
    if s != [] && IsSpace(s[0]) then LStrip(s[1..]) else s
  }

  /** `str.rstrip()`: drops the longest all-whitespace suffix. */
  function RStrip(s: string): string {
    if s != [] && IsSpace(s[|s| - 1]) then RStrip(s[..|s| - 1]) else s
  }

  /** What `lstrip()` returns is a suffix of its input, what it drops is all
      whitespace, and the result does not start with whitespace. */
  lemma {:induction false} LStripSpec(s: string)
    ensures |LStrip(s)| <= |s| && LStrip(s) == s[|s| - |LStrip(s)|..]
    ensures AllSpace(s[..|s| - |LStrip(s)|])
    ensures LStrip(s) != [] ==> !IsSpace(LStrip(s)[0])
  {
    if s != [] && IsSpace(s[0]) {
      LStripSpec(s[1..]);
      var k := |s| - |LStrip(s)|;
      assert s[..k] == [s[0]] + s[1..][..k - 1];
    }
  }

  /** What `rstrip()` returns is a prefix of its input, what it drops is all
      whitespace, and the result does not end with whitespace. */
  lemma {:induction false} RStripSpec(s: string)
    ensures |RStrip(s)| <= |s| && RStrip(s) == s[..|RStrip(s)|]
    ensures AllSpace(s[|RStrip(s)|..])
    ensures RStrip(s) != [] ==> !IsSpace(RStrip(s)[|RStrip(s)| - 1])
  {
    if s != [] && IsSpace(s[|s| - 1]) {
      var s' := s[..|s| - 1];
      RStripSpec(s');
      var k := |RStrip(s)|;
      assert s[k..] == s'[k..] + [s[|s| - 1]];
    }
  }

  /** `str.strip()`: neither starts nor ends with whitespace. */
  function Strip(s: string): (r: string)
    ensures IsTrimmed(r)
  {
    LStripSpec(s);
    RStripSpec(LStrip(s));
    RStrip(LStrip(s))
  }

  /** What `strip()` returns is a slice of its input with only whitespace
      around it. */
  lemma StripIsSlice(s: string)
    ensures exists i :: 0 <= i <= |s| - |Strip(s)| && Strip(s) == s[i..i + |Strip(s)|]
                       && AllSpace(s[..i]) && AllSpace(s[i + |Strip(s)|..])
  {
    var l := LStrip(s);
    var r := RStrip(l);
    LStripSpec(s);
    RStripSpec(l);
    var i := |s| - |l|;
    assert r == s[i..][..|r|];
    assert s[i..i + |r|] == r;
    assert AllSpace(s[i + |r|..]) by {
      assert s[i + |r|..] == l[|r|..];
    }
  }

  function LowerChar(c: char): (d: char)
    ensures !IsUpper(d)
    ensures IsSpace(d) <==> IsSpace(c)
  {
    if IsUpper(c) then (c as int - 'A' as int + 'a' as int) as char else c
  }

  /** `str.lower()`: lowers every character on its own, keeps the length, and
      leaves no upper-case letter. */
  function Lower(s: string): (r: string)
    ensures |r| == |s|
    ensures forall i :: 0 <= i < |s| ==> r[i] == LowerChar(s[i])
    ensures forall i :: 0 <= i < |r| ==> !IsUpper(r[i])
  {
    if s == [] then [] else [LowerChar(s[0])] + Lower(s[1..])
  }

  /** A string with no upper-case letter is its own lower-case form; in
      particular `Lower` is idempotent. */
  lemma LowerOfLower(s: string)
    requires forall i :: 0 <= i < |s| ==> !IsUpper(s[i])
    ensures Lower(s) == s
  {
  }

  lemma {:induction false} LStripSpacePrefix(pre: string, s: string)
    requires AllSpace(pre)
    ensures LStrip(pre + s) == LStrip(s)
  {
    if pre == [] {
      assert pre + s == s;
    } else {
      assert (pre + s)[0] == pre[0] && (pre + s)[1..] == pre[1..] + s;
      LStripSpacePrefix(pre[1..], s);
    }
  }

  lemma {:induction false} RStripSpaceSuffix(s: string, post: string)
    requires AllSpace(post)
    ensures RStrip(s + post) == RStrip(s)
  {
    if post == [] {
      assert s + post == s;
    } else {
      var post' := post[..|post| - 1];
      assert (s + post)[|s + post| - 1] == post[|post| - 1];
      assert (s + post)[..|s + post| - 1] == s + post';
      RStripSpaceSuffix(s, post');
    }
  }

  lemma {:induction false} LStripAppend(s: string, t: string)
    requires LStrip(s) != []
    ensures LStrip(s + t) == LStrip(s) + t
  {
    if IsSpace(s[0]) {
      assert (s + t)[1..] == s[1..] + t;
      LStripAppend(s[1..], t);
    }
  }

  lemma LStripAllSpace(s: string)
    requires AllSpace(s)
    ensures LStrip(s) == []
  {
    LStripSpacePrefix(s, []);
    assert s + [] == s;
  }

  /** Surrounding whitespace does not change what `strip()` returns. */
  lemma {:induction false} StripIgnoresPadding(pre: string, s: string, post: string)
    requires AllSpace(pre) && AllSpace(post)
    ensures Strip(pre + s + post) == Strip(s)
  {
    var x := pre + s + post;
    assert x == pre + (s + post);
    LStripSpacePrefix(pre, s + post);
    assert Strip(x) == RStrip(LStrip(s + post));
    var l := LStrip(s);
    if l == [] {
      LStripSpec(s);
      assert s[..|s|] == s;
      assert AllSpace(s);
      assert AllSpace(s + post) by {
        forall i | 0 <= i < |s + post| ensures IsSpace((s + post)[i]) {
          if i < |s| { assert (s + post)[i] == s[i]; }
          else { assert (s + post)[i] == post[i - |s|]; }
        }
      }
      LStripAllSpace(s + post);
    } else {
      LStripAppend(s, post);
      RStripSpaceSuffix(l, post);
    }
  }

  /** `strip()` leaves an already trimmed string alone, so it is idempotent. */
  lemma StripTrimmed(s: string)
    requires IsTrimmed(s)
    ensures Strip(s) == s
  {
  }

  lemma {:induction false} LStripLower(s: string)
    ensures LStrip(Lower(s)) == Lower(LStrip(s))
  {
    if s != [] {
      assert Lower(s)[1..] == Lower(s[1..]);
      LStripLower(s[1..]);
    }
  }

  lemma {:induction false} RStripLower(s: string)
    ensures RStrip(Lower(s)) == Lower(RStrip(s))
  {
    if s != [] {
      var s' := s[..|s| - 1];
      assert Lower(s)[..|s| - 1] == Lower(s');
      RStripLower(s');
    }
  }

  /** Lowering and stripping commute, since lowering never creates or removes
      whitespace. */
  lemma StripLower(s: string)
    ensures Strip(Lower(s)) == Lower(Strip(s))
  {
    LStripLower(s);
    RStripLower(LStrip(s));
  }
}
