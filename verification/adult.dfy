/** The boolean coercer: turns a raw `adult` cell into a strict bool. */
module Adult {
  import opened PyValues

  /** Python's `str.isspace` on one character: the characters `str.strip()` removes. */
  predicate IsSpace(c: char): (b: bool)
    ensures c == ' ' || c == '\t' || c == '\n' || c == '\r' ==> b
    ensures b ==> !('a' <= c <= 'z') && !('A' <= c <= 'Z') && !('0' <= c <= '9')
  {
    var n := c as int;
    n == 0x20 || 0x09 <= n <= 0x0D || 0x1C <= n <= 0x1F || n == 0x85 || n == 0xA0 || n == 0x1680
    || 0x2000 <= n <= 0x200A || n == 0x2028 || n == 0x2029 || n == 0x202F || n == 0x205F || n == 0x3000
  }

  /** `s.lstrip()`: what is left of `s` once leading whitespace is cut;
      `TrimLeftIsSuffix` says it is a suffix of `s`. */
  function TrimLeft(s: string): (r: string)
    ensures |r| <= |s|
    ensures forall k :: 0 <= k < |s| - |r| ==> IsSpace(s[k])
    ensures r != [] ==> !IsSpace(r[0])
  {
    if s != [] && IsSpace(s[0]) then TrimLeft(s[1..]) else s
  }

  lemma {:induction false} TrimLeftIsSuffix(s: string)
    ensures TrimLeft(s) == s[|s| - |TrimLeft(s)|..]
  {
    if s != [] && IsSpace(s[0]) {
      TrimLeftIsSuffix(s[1..]);
      assert s[1..][|s| - 1 - |TrimLeft(s[1..])|..] == s[|s| - |TrimLeft(s)|..];
    }
  }

  /** `s.rstrip()`: what is left of `s` once trailing whitespace is cut;
      `TrimRightIsPrefix` says it is a prefix of `s`. */
  function TrimRight(s: string): (r: string)
    ensures |r| <= |s|
    ensures forall k :: |r| <= k < |s| ==> IsSpace(s[k])
    ensures r != [] ==> !IsSpace(r[|r| - 1])
  {
    if s != [] && IsSpace(s[|s| - 1]) then TrimRight(s[..|s| - 1]) else s
  }

  lemma {:induction false} TrimRightIsPrefix(s: string)
    ensures TrimRight(s) == s[..|TrimRight(s)|]
  {
    if s != [] && IsSpace(s[|s| - 1]) {
      TrimRightIsPrefix(s[..|s| - 1]);
      assert s[..|s| - 1][..|TrimRight(s)|] == s[..|TrimRight(s)|];
    }
  }

  /** `s.strip()`: neither starts nor ends with whitespace; `StripIsSlice` says
      it is what remains of `s` once whitespace is cut from both ends. */
  function Strip(s: string): (r: string)
    ensures |r| <= |s|
    ensures r != [] ==> !IsSpace(r[0]) && !IsSpace(r[|r| - 1])
  {
    var left := TrimLeft(s);
    TrimRightIsPrefix(left);
    TrimRight(left)
  }

  /** The stripped string is the contiguous slice `s[i..j]`, where `i` counts
      the leading whitespace, and only whitespace lies outside it. */
  lemma StripIsSlice(s: string)
    ensures var i := |s| - |TrimLeft(s)|;
            var j := i + |Strip(s)|;
            && 0 <= i <= j <= |s| && Strip(s) == s[i..j]
            && (forall k :: 0 <= k < i ==> IsSpace(s[k]))
            && (forall k :: j <= k < |s| ==> IsSpace(s[k]))
  {
    var left := TrimLeft(s);
    var r := TrimRight(left);
    TrimLeftIsSuffix(s);
    TrimRightIsPrefix(left);
    PrefixOfSuffix(s, left, r);
  }

  /** A prefix `r` of a suffix `left` of `s` is a slice of `s`, and past its end
      `s` and `left` agree. */
  lemma PrefixOfSuffix(s: string, left: string, r: string)
    requires |left| <= |s| && left == s[|s| - |left|..]
    requires |r| <= |left| && r == left[..|r|]
    ensures r == s[|s| - |left|..|s| - |left| + |r|]
    ensures forall k :: |s| - |left| + |r| <= k < |s| ==> s[k] == left[k - (|s| - |left|)]
  {
  }

  /** Python's `str.lower` on one character, restricted to ASCII; see README. */
  function LowerChar(c: char): (r: char)
    ensures !('A' <= r <= 'Z')
    ensures !('A' <= c <= 'Z') ==> r == c
    ensures 'A' <= c <= 'Z' ==> 'a' <= r <= 'z'
  {
    if 'A' <= c <= 'Z' then (c as int + 32) as char else c
  }

  /** `s.lower()`, character by character. */
  function Lower(s: string): (r: string)
    ensures |r| == |s|
    ensures forall k :: 0 <= k < |r| ==> !('A' <= r[k] <= 'Z')
  {
    seq(|s|, k requires 0 <= k < |s| => LowerChar(s[k]))
  }

  const Affirmative: set<string> := {"true", "t", "1", "yes", "y"}
  const Negative: set<string> := {"false", "f", "0", "no", "n"}

  /** `coerce_adult`: bool first, then int and float (`bool(value)`), then
      trimmed lower-cased text, else False. */
  function CoerceAdult(v: Value): (r: bool)
    ensures v.PyBool? ==> r == v.b
    ensures v.PyInt? ==> (r <==> v.i != 0)
    ensures v.PyFloat? ==> (r <==> v.f != Finite(0.0))
    ensures v.PyStr? ==> (r <==> Lower(Strip(v.s)) in Affirmative)
    ensures !(v.PyBool? || v.PyInt? || v.PyFloat? || v.PyStr?) ==> !r
  {
    match v
    case PyBool(b) => b
    case PyInt(i) => i != 0
    case PyFloat(f) => FloatTruth(f)
    case PyStr(s) =>
      var t := Lower(Strip(s));
      if t in Affirmative then true
      else if t in Negative then false
      else false
    case _ => false
  }

  /** Every affirmative word starts with `t`, `1` or `y`, and every negative
      word with `f`, `0` or `n`. */
  lemma WordInitials()
    ensures forall w :: w in Affirmative ==> |w| > 0 && w[0] in "t1y"
    ensures forall w :: w in Negative ==> |w| > 0 && w[0] in "f0n"
  {
  }

  /** The affirmative and negative words are disjoint, so the order of the two
      text checks never matters. */
  lemma WordSetsDisjoint()
    ensures Affirmative * Negative == {}
  {
    WordInitials();
    forall w | w in Affirmative ensures w !in Negative {
      assert w[0] in "t1y";
    }
  }

  /** Text whose normal form is a negative word coerces to False. */
  lemma NegativeWordIsFalse(s: string)
    requires Lower(Strip(s)) in Negative
    ensures !CoerceAdult(PyStr(s))
  {
    var t := Lower(Strip(s));
    WordInitials();
    assert t[0] in "f0n";
    assert t !in Affirmative;
  }

  /** Lower-casing changes no character into or out of whitespace. */
  lemma LowerPreservesSpace(s: string)
    ensures |Lower(s)| == |s|
    ensures forall k :: 0 <= k < |s| ==> (IsSpace(Lower(s)[k]) <==> IsSpace(s[k]))
  {
    forall k | 0 <= k < |s| ensures IsSpace(Lower(s)[k]) <==> IsSpace(s[k]) {
      assert Lower(s)[k] == LowerChar(s[k]);
    }
  }

  lemma LowerIdempotent(s: string)
    ensures Lower(Lower(s)) == Lower(s)
  {
    forall k | 0 <= k < |s| ensures Lower(Lower(s))[k] == Lower(s)[k] {
      var c := s[k];
      assert Lower(s)[k] == LowerChar(c);
      assert LowerChar(LowerChar(c)) == LowerChar(c);
    }
  }

  /** A string with no whitespace at either end is its own strip. */
  lemma StripTrimmed(t: string)
    requires t != [] ==> !IsSpace(t[0]) && !IsSpace(t[|t| - 1])
    ensures Strip(t) == t
  {
    assert TrimLeft(t) == t;
    assert TrimRight(t) == t;
  }

  /** The trimmed, lower-cased form of a string is a fixed point of trimming and lower-casing. */
  lemma NormalFormStable(s: string)
    ensures Lower(Strip(Lower(Strip(s)))) == Lower(Strip(s))
  {
    var t := Strip(s);
    var u := Lower(t);
    assert u != [] ==> !IsSpace(u[0]) && !IsSpace(u[|u| - 1]) by {
      LowerPreservesSpace(t);
    }
    StripTrimmed(u);
    LowerIdempotent(t);
  }

  /** Coercion of text depends only on its trimmed, lower-cased form: feeding
      that form back in gives the same answer. */
  lemma CoerceAdultNormalized(s: string)
    ensures CoerceAdult(PyStr(Lower(Strip(s)))) == CoerceAdult(PyStr(s))
  {
    NormalFormStable(s);
  }

  /** A float NaN, which is how pandas stores an empty CSV cell, coerces to True,
      while None coerces to False. */
  lemma MissingCellsDisagree()
    ensures CoerceAdult(PyFloat(NaN)) == true
    ensures CoerceAdult(PyNone) == false
  {
  }

  /** No letter is whitespace. */
  lemma LetterIsNotSpace(c: char)
    requires 'a' <= c <= 'z' || 'A' <= c <= 'Z'
    ensures !IsSpace(c)
  {
  }

  lemma TrimPaddedYes()
    ensures Strip(" Yes ") == "Yes"
  {
    LetterIsNotSpace('Y');
    LetterIsNotSpace('s');
    assert IsSpace(' ');
    assert " Yes "[0] == ' ' && " Yes "[1..] == "Yes ";
    assert TrimLeft(" Yes ") == TrimLeft("Yes ");
    assert "Yes "[0] == 'Y';
    assert TrimLeft("Yes ") == "Yes ";
    assert "Yes "[|"Yes "| - 1] == ' ' && "Yes "[..|"Yes "| - 1] == "Yes";
    assert TrimRight("Yes ") == TrimRight("Yes");
    StripTrimmed("Yes");
  }

  lemma LowerYes()
    ensures Lower("Yes") == "yes"
  {
    assert LowerChar('Y') == 'y';
  }

  lemma TrimNo()
    ensures Strip("no") == "no"
  {
    LetterIsNotSpace('n');
    LetterIsNotSpace('o');
    assert "no"[0] == 'n' && "no"[|"no"| - 1] == 'o';
    StripTrimmed("no");
  }

  lemma LowerNo()
    ensures Lower("no") == "no"
  {
  }

  /** `" Yes "` coerces to True: surrounding whitespace and case are ignored. */
  lemma PaddedYesIsAdult()
    ensures CoerceAdult(PyStr(" Yes ")) == true
  {
    TrimPaddedYes();
    LowerYes();
    assert "yes" in Affirmative;
  }

  /** `"no"` coerces to False. */
  lemma NoIsNotAdult()
    ensures CoerceAdult(PyStr("no")) == false
  {
    TrimNo();
    LowerNo();
    assert "no" in Negative;
    NegativeWordIsFalse("no");
  }
}
