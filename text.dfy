/** The two pieces of Python string handling the core relies on:
    `str.strip()` with no argument, and `str.replace("Bearer ", "")`. */
module Text {

  /** Python's `str.isspace()` for one character: the code points Python treats
      as whitespace (tab to carriage return, the four information separators,
      space, next line, no-break space, ogham space mark, the typographic
      spaces U+2000..U+200A, line and paragraph separators, narrow no-break
      space, medium mathematical space, ideographic space). */
  predicate IsSpace(c: char) {
    var n := c as int;
    (0x09 <= n <= 0x0D) || (0x1C <= n <= 0x20) || n == 0x85 || n == 0xA0 ||
    n == 0x1680 || (0x2000 <= n <= 0x200A) || n == 0x2028 || n == 0x2029 ||
    n == 0x202F || n == 0x205F || n == 0x3000
  }

  /** Leading whitespace removed: the result is a suffix of `s`, everything
      dropped is whitespace and the result does not start with whitespace. */
  function TrimStart(s: string): (r: string)
    ensures |r| <= |s| && r == s[|s| - |r|..]
    ensures forall i | 0 <= i < |s| - |r| :: IsSpace(s[i])
    ensures r == [] || !IsSpace(r[0])
  {
    if s != [] && IsSpace(s[0]) then TrimStart(s[1..]) else s
  }

  /** Trailing whitespace removed: the result is a prefix of `s`, everything
      dropped is whitespace and the result does not end with whitespace. */
  function TrimEnd(s: string): (r: string)
    ensures |r| <= |s| && r == s[..|r|]
    ensures forall i | |r| <= i < |s| :: IsSpace(s[i])
    ensures r == [] || !IsSpace(r[|r| - 1])
  {
    if s != [] && IsSpace(s[|s| - 1]) then TrimEnd(s[..|s| - 1]) else s
  }

  /** `s.strip()`: empty exactly when every character of `s` is whitespace;
      otherwise it starts and ends with a non-whitespace character. */
  function Strip(s: string): (r: string)
    ensures r == [] <==> forall i | 0 <= i < |s| :: IsSpace(s[i])
    ensures r != [] ==> !IsSpace(r[0]) && !IsSpace(r[|r| - 1])
  {
    TrimEnd(TrimStart(s))
  }

  const BEARER := "Bearer "

  /** `BEARER` occurs in `s` at index `i`. */
  predicate BearerAt(s: string, i: int) {
    0 <= i && i + |BEARER| <= |s| && s[i..i + |BEARER|] == BEARER
  }

  /** `h.replace("Bearer ", "")`: scanning left to right, every non-overlapping
      occurrence is deleted, wherever it stands. */
  function WithoutBearer(h: string): (r: string)
    ensures |r| <= |h|
    ensures (|h| - |r|) % |BEARER| == 0
    decreases |h|
  {
    if |h| < |BEARER| then h
    else if h[..|BEARER|] == BEARER then WithoutBearer(h[|BEARER|..])
    else [h[0]] + WithoutBearer(h[1..])
  }

  /** A header without any occurrence is passed through unchanged. */
  lemma {:induction false} WithoutBearerNoOccurrence(h: string)
    requires forall i | 0 <= i < |h| :: !BearerAt(h, i)
    ensures WithoutBearer(h) == h
    decreases |h|
  {
    if |h| >= |BEARER| {
      assert !BearerAt(h, 0);
      assert h[..|BEARER|] != BEARER;
      forall i | 0 <= i < |h[1..]| ensures !BearerAt(h[1..], i) {
        assert !BearerAt(h, i + 1);
        if i + |BEARER| <= |h[1..]| {
          assert h[1..][i..i + |BEARER|] == h[i + 1..i + 1 + |BEARER|];
        }
      }
      WithoutBearerNoOccurrence(h[1..]);
    }
  }

  /** An occurrence after a stretch `x` that holds no occurrence is deleted,
      whether or not it is at the front: the replacement is not a prefix strip. */
  lemma {:induction false} WithoutBearerDeletes(x: string, y: string)
    requires forall i | 0 <= i < |x| :: !BearerAt(x + BEARER + y, i)
    ensures WithoutBearer(x + BEARER + y) == x + WithoutBearer(y)
    decreases |x|
  {
    var h := x + BEARER + y;
    if x == [] {
      assert h[..|BEARER|] == BEARER;
      assert h[|BEARER|..] == y;
    } else {
      assert !BearerAt(h, 0);
      assert h[..|BEARER|] != BEARER;
      assert h[1..] == x[1..] + BEARER + y;
      forall i | 0 <= i < |x[1..]| ensures !BearerAt(x[1..] + BEARER + y, i) {
        assert !BearerAt(h, i + 1);
        if i + |BEARER| <= |h[1..]| {
          assert h[1..][i..i + |BEARER|] == h[i + 1..i + 1 + |BEARER|];
        }
      }
      WithoutBearerDeletes(x[1..], y);
      assert [h[0]] + (x[1..] + WithoutBearer(y)) == x + WithoutBearer(y);
    }
  }

  /** The usual header: the leading scheme is removed. */
  lemma WithoutBearerPrefix(t: string)
    ensures WithoutBearer(BEARER + t) == WithoutBearer(t)
  {
    WithoutBearerDeletes([], t);
    assert [] + BEARER + t == BEARER + t;
  }

  /** Deleting every occurrence can create a new one, so the stripped token
      may itself still contain the scheme. */
  lemma WithoutBearerCanLeaveOne()
    ensures WithoutBearer("BeBearer arer ") == BEARER
  {
    var h := "Be" + BEARER + "arer ";
    assert h == "BeBearer arer ";
    assert !BearerAt(h, 0) by { assert h[2] != BEARER[2]; }
    assert !BearerAt(h, 1) by { assert h[1] != BEARER[0]; }
    WithoutBearerDeletes("Be", "arer ");
    assert "Be" + "arer " == BEARER;
  }
}
