/**
 * The JavaScript string operations the chat handler relies on:
 * `toLowerCase`, `split(' ')`, `join` and `includes`.
 * Strings are sequences of characters; lower-casing is restricted to ASCII.
 */
module JsString {

  /** True of the 26 upper-case ASCII letters. */
  predicate IsUpper(c: char) {
    'A' <= c <= 'Z'
  }

  /** Lower-case one character: ASCII 'A'..'Z' map to 'a'..'z', everything else is kept. */
  function LowerChar(c: char): (d: char)
    ensures !IsUpper(d)
    ensures IsUpper(c) ==> d as int == c as int + 32
    ensures !IsUpper(c) ==> d == c
  {
    if IsUpper(c) then (c as int + 32) as char else c
  }

  /** `s.toLowerCase()`, character by character. */
  function Lower(s: string): (r: string)
    ensures |r| == |s|
    ensures forall i :: 0 <= i < |s| ==> r[i] == LowerChar(s[i])
  {
    seq(|s|, i requires 0 <= i < |s| => LowerChar(s[i]))
  }

  /** Lower-casing twice is lower-casing once. */
  lemma LowerIdempotent(s: string)
    ensures Lower(Lower(s)) == Lower(s)
  {
  }

  /** Lower-casing a concatenation lower-cases each part. */
  lemma LowerConcat(a: string, b: string)
    ensures Lower(a + b) == Lower(a) + Lower(b)
  {
  }

  /** Lower-casing never creates nor removes a space. */
  lemma LowerKeepsSpaces(s: string, i: int)
    requires 0 <= i < |s|
    ensures Lower(s)[i] == ' ' <==> s[i] == ' '
  {
  }

  /**
   * `s.split(sep)` for a one-character separator: the pieces between
   * consecutive separators, so `n` separators give `n + 1` pieces and
   * two adjacent separators give an empty piece.
   */
  function Split(s: string, sep: char): (r: seq<string>)
    ensures |r| >= 1
    ensures forall t :: t in r ==> sep !in t
    decreases |s|
  {
    if s == [] then [""]
    else
      var rest := Split(s[1..], sep);
      if s[0] == sep then [""] + rest
      else [[s[0]] + rest[0]] + rest[1..]
  }

  /** `ts.join(sep)`: the pieces with `sep` between consecutive ones. */
  function Join(ts: seq<string>, sep: string): string
    decreases |ts|
  {
    if |ts| == 0 then ""
    else if |ts| == 1 then ts[0]
    else ts[0] + sep + Join(ts[1..], sep)
  }

  /** Joining the pieces of a split with the same separator gives back the string. */
  lemma {:induction false} JoinSplit(s: string, sep: char)
    ensures Join(Split(s, sep), [sep]) == s
    decreases |s|
  {
    if s != [] {
      var rest := Split(s[1..], sep);
      JoinSplit(s[1..], sep);
      if s[0] == sep {
        assert Split(s, sep) == [""] + rest;
        assert ([""] + rest)[1..] == rest;
      } else {
        var r := Split(s, sep);
        assert r == [[s[0]] + rest[0]] + rest[1..];
        if |rest| == 1 {
          assert Join(r, [sep]) == [s[0]] + rest[0];
        } else {
          assert r[1..] == rest[1..];
          assert Join(r, [sep]) == [s[0]] + rest[0] + [sep] + Join(rest[1..], [sep]);
        }
        assert s == [s[0]] + s[1..];
      }
    }
  }

  /** Splitting a separator-free prefix glued to `u` extends the first piece of `u`. */
  lemma {:induction false} SplitPrefix(t: string, u: string, sep: char)
    requires sep !in t
    ensures Split(t + u, sep) == [t + Split(u, sep)[0]] + Split(u, sep)[1..]
    decreases |t|
  {
    if t != [] {
      assert (t + u)[0] == t[0];
      assert (t + u)[1..] == t[1..] + u;
      SplitPrefix(t[1..], u, sep);
      assert [t[0]] + (t[1..] + Split(u, sep)[0]) == t + Split(u, sep)[0];
    } else {
      var r := Split(u, sep);
      assert t + u == u && t + r[0] == r[0];
      assert r == [r[0]] + r[1..];
    }
  }

  /** Splitting pieces free of the separator after joining them gives back the pieces. */
  lemma {:induction false} SplitJoin(ts: seq<string>, sep: char)
    requires |ts| >= 1
    requires forall t :: t in ts ==> sep !in t
    ensures Split(Join(ts, [sep]), sep) == ts
    decreases |ts|
  {
    if |ts| == 1 {
      SplitPrefix(ts[0], "", sep);
      assert ts[0] + "" == ts[0];
    } else {
      var tail := Join(ts[1..], [sep]);
      SplitJoin(ts[1..], sep);
      assert Join(ts, [sep]) == ts[0] + ([sep] + tail);
      SplitPrefix(ts[0], [sep] + tail, sep);
      assert ([sep] + tail)[1..] == tail;
      assert Split([sep] + tail, sep) == [""] + ts[1..];
      assert ts[0] + "" == ts[0];
      assert ([""] + ts[1..])[1..] == ts[1..];
      assert Split(Join(ts, [sep]), sep) == [ts[0]] + ts[1..];
      assert ts == [ts[0]] + ts[1..];
    }
  }

  /** Some position holds two separators in a row. */
  predicate HasDoubleSep(s: string, sep: char) {
    exists i :: 0 <= i < |s| - 1 && s[i] == sep && s[i + 1] == sep
  }

  /** The first piece is empty exactly when the string is empty or starts with the separator. */
  lemma {:induction false} SplitHeadEmpty(s: string, sep: char)
    ensures Split(s, sep)[0] == "" <==> s == [] || s[0] == sep
  {
  }

  /** A later piece is empty exactly when the string ends with the separator or holds two in a row. */
  lemma {:induction false} SplitTailEmpty(s: string, sep: char)
    ensures "" in Split(s, sep)[1..] <==> (s != [] && s[|s| - 1] == sep) || HasDoubleSep(s, sep)
    decreases |s|
  {
    if s != [] {
      var s' := s[1..];
      var rest := Split(s', sep);
      SplitTailEmpty(s', sep);
      SplitHeadEmpty(s', sep);
      assert "" in rest <==> rest[0] == "" || "" in rest[1..] by {
        assert rest == [rest[0]] + rest[1..];
      }
      assert HasDoubleSep(s', sep) ==> HasDoubleSep(s, sep) by {
        if HasDoubleSep(s', sep) {
          var i :| 0 <= i < |s'| - 1 && s'[i] == sep && s'[i + 1] == sep;
          assert s[i + 1] == sep && s[i + 2] == sep;
        }
      }
      assert HasDoubleSep(s, sep) ==> (s[0] == sep && s' != [] && s'[0] == sep) || HasDoubleSep(s', sep) by {
        if HasDoubleSep(s, sep) {
          var i :| 0 <= i < |s| - 1 && s[i] == sep && s[i + 1] == sep;
          if i > 0 {
            assert s'[i - 1] == sep && s'[i] == sep;
          }
        }
      }
      if s[0] == sep {
        assert Split(s, sep)[1..] == rest;
        if s' == [] {
          assert s[|s| - 1] == sep;
        } else {
          assert s[|s| - 1] == s'[|s'| - 1];
        }
      } else {
        assert Split(s, sep)[1..] == rest[1..];
        if s' != [] {
          assert s[|s| - 1] == s'[|s'| - 1];
        }
      }
    }
  }

  /** An empty piece appears exactly when the string is empty, starts or ends with the separator, or holds two in a row. */
  lemma SplitHasEmptyPiece(s: string, sep: char)
    ensures "" in Split(s, sep) <==>
      s == [] || s[0] == sep || s[|s| - 1] == sep || HasDoubleSep(s, sep)
  {
    var r := Split(s, sep);
    assert r == [r[0]] + r[1..];
    SplitHeadEmpty(s, sep);
    SplitTailEmpty(s, sep);
  }

  /** `w` occurs in `h` starting at position `k`. */
  predicate OccursAt(h: string, w: string, k: nat) {
    k + |w| <= |h| && h[k..k + |w|] == w
  }

  /** `h.includes(w)`: scan `h` from the left for an occurrence of `w`. */
  function Includes(h: string, w: string): bool
    decreases |h|
  {
    w <= h || (h != [] && Includes(h[1..], w))
  }

  /** `includes` holds exactly when `w` occurs at some position of `h`. */
  lemma {:induction false} IncludesIff(h: string, w: string)
    ensures Includes(h, w) <==> exists k: nat :: OccursAt(h, w, k)
    decreases |h|
  {
    if h != [] {
      IncludesIff(h[1..], w);
      if Includes(h[1..], w) {
        var k: nat :| OccursAt(h[1..], w, k);
        assert h[k + 1..k + 1 + |w|] == h[1..][k..k + |w|];
        assert OccursAt(h, w, k + 1);
      }
      if k: nat :| OccursAt(h, w, k) {
        if k == 0 {
          assert w <= h;
        } else {
          assert h[1..][k - 1..k - 1 + |w|] == h[k..k + |w|];
          assert OccursAt(h[1..], w, k - 1);
        }
      }
    } else {
      if k: nat :| OccursAt(h, w, k) {
        assert |w| == 0;
      }
    }
    if w <= h {
      assert OccursAt(h, w, 0);
    }
  }

  /** The empty string occurs in every string. */
  lemma IncludesEmpty(h: string)
    ensures Includes(h, "")
  {
  }

  /** An occurrence inside a part is an occurrence in the whole. */
  lemma IncludesWithin(a: string, b: string, c: string, w: string)
    requires Includes(b, w)
    ensures Includes(a + b + c, w)
  {
    IncludesIff(b, w);
    var k: nat :| OccursAt(b, w, k);
    assert (a + b + c)[|a| + k..|a| + k + |w|] == b[k..k + |w|];
    assert OccursAt(a + b + c, w, |a| + k);
    IncludesIff(a + b + c, w);
  }
}
