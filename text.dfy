/** String operations the contact filter relies on: lower-casing and
    substring search (JavaScript's `toLowerCase` and `includes`). */
module Text {

  /** ASCII-only lower-casing of one character: 'A'..'Z' become 'a'..'z',
      every other character is left alone. */
  function LowerChar(c: char): (r: char)
    ensures 'A' <= c <= 'Z' ==> 'a' <= r <= 'z' && r as int - c as int == 32
    ensures !('A' <= c <= 'Z') ==> r == c
    ensures !('A' <= r <= 'Z')
  {
    if 'A' <= c <= 'Z' then (c as int + 32) as char else c
  }

  /** `s.toLowerCase()`, character by character. */
  function Lower(s: string): (r: string)
    ensures |r| == |s|
    ensures forall i :: 0 <= i < |s| ==> r[i] == LowerChar(s[i])
  {
    seq(|s|, i requires 0 <= i < |s| => LowerChar(s[i]))
  }

  /** `s` contains no ASCII letter, upper- or lower-case. */
  predicate NoLetters(s: string)
  {
    forall i :: 0 <= i < |s| ==> !('A' <= s[i] <= 'Z') && !('a' <= s[i] <= 'z')
  }

  /** Lowering is the identity on a string without letters, and only such a string
      lowers to one without letters: so the two strings agree. */
  lemma SameLowerNoLetters(s: string, t: string)
    requires Lower(s) == Lower(t)
    requires NoLetters(s)
    ensures s == t
  {
    assert |s| == |t|;
    forall i | 0 <= i < |s| ensures s[i] == t[i] {
      assert LowerChar(s[i]) == LowerChar(t[i]);
    }
  }

  /** `n` occurs in `h` starting at index `i`. */
  ghost predicate OccursAt(h: string, n: string, i: int)
  {
    0 <= i && i + |n| <= |h| && h[i..i + |n|] == n
  }

  /** `n` is a contiguous substring of `h` (the empty string is a substring of every string). */
  ghost predicate IsSubstring(n: string, h: string)
  {
    exists i :: OccursAt(h, n, i)
  }

  /** `h.includes(n)`: try every start position from the left. */
  function Includes(h: string, n: string): bool
    decreases |h|
  {
    if n <= h then true
    else if |h| == 0 then false
    else Includes(h[1..], n)
  }

  /** An occurrence in `h[1..]` is an occurrence in `h` one position further right, and back. */
  lemma OccursAtShift(h: string, n: string, i: int)
    requires |h| > 0 && i >= 0
    ensures OccursAt(h[1..], n, i) <==> OccursAt(h, n, i + 1)
  {
    if 0 <= i && i + |n| <= |h| - 1 {
      assert h[1..][i..i + |n|] == h[i + 1..i + 1 + |n|];
    }
  }

  /** `Includes` decides the substring relation. */
  lemma {:induction false} IncludesIsSubstring(h: string, n: string)
    ensures Includes(h, n) <==> IsSubstring(n, h)
    decreases |h|
  {
    if n <= h {
      assert h[0..|n|] == n;
      assert OccursAt(h, n, 0);
    } else if |h| == 0 {
    } else {
      IncludesIsSubstring(h[1..], n);
      if IsSubstring(n, h) {
        var i :| OccursAt(h, n, i);
        if i == 0 {
          assert false;
        }
        OccursAtShift(h, n, i - 1);
        assert OccursAt(h[1..], n, i - 1);
      }
      if IsSubstring(n, h[1..]) {
        var i :| OccursAt(h[1..], n, i);
        OccursAtShift(h, n, i);
      }
    }
  }

  /** A substring of a string without letters has no letters. */
  lemma SubstringNoLetters(n: string, h: string)
    requires IsSubstring(n, h)
    requires NoLetters(h)
    ensures NoLetters(n)
  {
    var i :| OccursAt(h, n, i);
    forall k | 0 <= k < |n| ensures !('A' <= n[k] <= 'Z') && !('a' <= n[k] <= 'z') {
      assert n[k] == h[i..i + |n|][k] == h[i + k];
    }
  }

  /** The empty search term is found in every string. */
  lemma IncludesEmpty(h: string)
    ensures Includes(h, "")
  {
  }

  /** A term whose first character never appears in `h` is not found in `h`. */
  lemma {:induction false} FirstCharAbsent(h: string, n: string)
    requires |n| > 0
    requires forall i :: 0 <= i < |h| ==> h[i] != n[0]
    ensures !Includes(h, n)
    decreases |h|
  {
    if |h| > 0 {
      assert !(n <= h) by { assert h[0] != n[0]; }
      FirstCharAbsent(h[1..], n);
    }
  }

  /** A term starting with a letter that `h` holds in neither case is not found in `Lower(h)`. */
  lemma LetterAbsentNotFound(h: string, n: string)
    requires |n| > 0 && 'a' <= n[0] <= 'z'
    requires n[0] !in h && (n[0] as int - 32) as char !in h
    ensures !Includes(Lower(h), n)
  {
    forall i | 0 <= i < |h| ensures Lower(h)[i] != n[0] {
      assert h[i] in h;
    }
    FirstCharAbsent(Lower(h), n);
  }
}
