/** The string operations of the Java standard library that the core is built from, the
    per-character reference form of a replace chain, and a reference reader for quoted string
    literals against which the escapers are proved. */
module Text {
  import opened Wrappers

  /** `s.replace(pat, rep)` in Java, and `s.replaceAll(pat, rep)` for a pattern that is one
      literal character: occurrences of the non-empty `pat` are replaced from left to right,
      without overlap. */
  function Replace(s: string, pat: string, rep: string): string
    requires pat != []
    decreases |s|
  {
    if |s| < |pat| then s
    else if s[..|pat|] == pat then rep + Replace(s[|pat|..], pat, rep)
    else [s[0]] + Replace(s[1..], pat, rep)
  }

  /** The one-character string holding `c`. */
  function Single(c: char): string
  {
    [c]
  }

  /** The pieces written one after another, as a builder appending them in order does. */
  function Joined(pieces: seq<string>): string
  {
    if pieces == [] then "" else pieces[0] + Joined(pieces[1..])
  }

  /** Writing the next piece after the first `i` gives the first `i + 1`. */
  lemma JoinedSnoc(done: string, pieces: seq<string>, i: nat)
    requires i < |pieces|
    ensures done + Joined(pieces[..i + 1]) == done + Joined(pieces[..i]) + pieces[i]
  {
    JoinedAppend(pieces[..i], [pieces[i]]);
    assert pieces[..i] + [pieces[i]] == pieces[..i + 1];
    assert Joined([pieces[i]]) == pieces[i] + Joined([]);
  }

  /** The pieces of two lists, written one after another, are the two texts joined. */
  lemma {:induction false} JoinedAppend(a: seq<string>, b: seq<string>)
    ensures Joined(a + b) == Joined(a) + Joined(b)
  {
    if a == [] {
      assert a + b == b;
    } else {
      JoinedAppend(a[1..], b);
      assert (a + b)[0] == a[0] && (a + b)[1..] == a[1..] + b;
      Assoc(a[0], Joined(a[1..]), Joined(b));
    }
  }

  // Concatenation regrouped from the right, stated once each so that a text appended piece by
  // piece can be compared with one written from the right.

  /** One regrouping step; the builders of the request bodies, the script and the container
      use it after each append. */
  lemma Assoc(a: string, b: string, c: string)
    ensures a + b + c == a + (b + c)
  {
  }

  /** The model field and the opening of the messages array of the chat-completion body,
      then the rest of the body, as one text written from the right. */
  lemma Nest6(a: string, b: string, c: string, d: string, e: string, f: string)
    ensures a + b + c + d + e + f == a + (b + (c + (d + (e + f))))
  {
  }

  /** The nine pieces the request builders append (the custom prompt and parameters, the
      chat-completion messages and parameters), as one text written from the right. */
  lemma Nest9(a: string, b: string, c: string, d: string, e: string, f: string, g: string, h: string, i: string)
    ensures a + b + c + d + e + f + g + h + i == a + (b + (c + (d + (e + (f + (g + (h + i)))))))
  {
  }

  /** The concatenation of `f(c)` for every character `c` of `s`, in order: a replace chain
      over single characters, written as one pass over the input. */
  function FlatMap(f: char -> string, s: string): string
  {
    if s == [] then [] else f(s[0]) + FlatMap(f, s[1..])
  }

  lemma {:induction false} FlatMapIdentity(f: char -> string, s: string)
    requires forall x :: x in s ==> f(x) == [x]
    ensures FlatMap(f, s) == s
  {
    if s != [] {
      FlatMapIdentity(f, s[1..]);
      assert s == [s[0]] + s[1..];
    }
  }

  lemma {:induction false} FlatMapAppend(f: char -> string, a: string, b: string)
    ensures FlatMap(f, a + b) == FlatMap(f, a) + FlatMap(f, b)
  {
    if a == [] {
      assert a + b == b;
    } else {
      assert (a + b)[0] == a[0] && (a + b)[1..] == a[1..] + b;
      FlatMapAppend(f, a[1..], b);
    }
  }

  lemma FlatMapSnoc(f: char -> string, s: string)
    requires s != []
    ensures FlatMap(f, s) == FlatMap(f, s[..|s| - 1]) + f(s[|s| - 1])
  {
    assert s == s[..|s| - 1] + [s[|s| - 1]];
    FlatMapAppend(f, s[..|s| - 1], [s[|s| - 1]]);
    assert FlatMap(f, [s[|s| - 1]]) == f(s[|s| - 1]) + FlatMap(f, []);
  }

  /** No character of `FlatMap(f, s)` is `c` when no image `f(x)` holds `c`. */
  lemma {:induction false} FlatMapAvoids(f: char -> string, s: string, c: char)
    requires forall x :: c !in f(x)
    ensures c !in FlatMap(f, s)
  {
    if s != [] {
      FlatMapAvoids(f, s[1..], c);
    }
  }

  /** Every `c` in `s` comes right after a `p`. */
  predicate EveryPreceded(s: string, c: char, p: char)
  {
    forall i :: 0 <= i < |s| && s[i] == c ==> i > 0 && s[i - 1] == p
  }

  lemma {:induction false} FlatMapPreceded(f: char -> string, s: string, c: char, p: char)
    requires forall x :: EveryPreceded(f(x), c, p)
    ensures EveryPreceded(FlatMap(f, s), c, p)
  {
    if s != [] {
      var t, rest := f(s[0]), FlatMap(f, s[1..]);
      FlatMapPreceded(f, s[1..], c, p);
      assert EveryPreceded(t, c, p);
      var whole := t + rest;
      forall i | 0 <= i < |whole| && whole[i] == c
        ensures i > 0 && whole[i - 1] == p
      {
        if i < |t| {
          assert whole[i] == t[i];
        } else {
          assert whole[i] == rest[i - |t|];
          if i - |t| > 0 {
            assert whole[i - 1] == rest[i - 1 - |t|];
          }
        }
      }
    }
  }

  /** Every `c` in `s` is followed, inside `s`, by an `n`. */
  predicate EveryFollowed(s: string, c: char, n: char)
  {
    forall i :: 0 <= i < |s| && s[i] == c ==> i + 1 < |s| && s[i + 1] == n
  }

  lemma {:induction false} FlatMapFollowed(f: char -> string, s: string, c: char, n: char)
    requires forall x :: EveryFollowed(f(x), c, n)
    ensures EveryFollowed(FlatMap(f, s), c, n)
  {
    if s != [] {
      var t, rest := f(s[0]), FlatMap(f, s[1..]);
      FlatMapFollowed(f, s[1..], c, n);
      assert EveryFollowed(t, c, n);
      var whole := t + rest;
      forall i | 0 <= i < |whole| && whole[i] == c
        ensures i + 1 < |whole| && whole[i + 1] == n
      {
        if i < |t| {
          assert whole[i] == t[i] && whole[i + 1] == t[i + 1];
        } else {
          assert whole[i] == rest[i - |t|] && whole[i + 1] == rest[i + 1 - |t|];
        }
      }
    }
  }

  /** How the image `t` of one character passes through `Replace(_, pat, rep)` when it is
      followed by further images: it is the pattern itself and becomes `rep`, or it is kept
      (`u == t`) because no occurrence of the pattern can start inside it. */
  predicate TokenReplaced(t: string, u: string, pat: string, rep: string)
  {
    |pat| > 0 &&
    ((t == pat && u == rep) ||
     (u == t && (pat[0] !in t ||
                 (|pat| == 2 && |t| == 2 && t[0] == pat[0] && t[1] != pat[1] && t[1] != pat[0]))))
  }

  lemma {:induction false} ReplaceVerbatim(t: string, r: string, pat: string, rep: string)
    requires pat != [] && pat[0] !in t
    ensures Replace(t + r, pat, rep) == t + Replace(r, pat, rep)
    decreases |t|
  {
    if t == [] {
      assert t + r == r;
    } else {
      var s := t + r;
      assert s[0] == t[0] && s[1..] == t[1..] + r;
      ReplaceVerbatim(t[1..], r, pat, rep);
      if |s| >= |pat| {
        assert s[..|pat|][0] == t[0];
        assert s[..|pat|] != pat;
        calc {
          Replace(s, pat, rep);
          [s[0]] + Replace(s[1..], pat, rep);
          [t[0]] + (t[1..] + Replace(r, pat, rep));
          { assert [t[0]] + t[1..] == t; }
          t + Replace(r, pat, rep);
        }
      } else {
        assert Replace(r, pat, rep) == r;
      }
    }
  }

  lemma ReplaceMatch(r: string, pat: string, rep: string)
    requires pat != []
    ensures Replace(pat + r, pat, rep) == rep + Replace(r, pat, rep)
  {
    assert (pat + r)[..|pat|] == pat;
    assert (pat + r)[|pat|..] == r;
  }

  lemma ReplacePair(t: string, r: string, pat: string, rep: string)
    requires |pat| == 2 && |t| == 2 && t[0] == pat[0] && t[1] != pat[1] && t[1] != pat[0]
    ensures Replace(t + r, pat, rep) == t + Replace(r, pat, rep)
  {
    var s := t + r;
    assert s[..2] == t;
    assert s[1..] == [t[1]] + r;
    ReplaceVerbatim([t[1]], r, pat, rep);
  }

  /** A replace over the images of a character string is the image under `g` when every
      image passes through as `TokenReplaced` says. */
  lemma {:induction false} ReplaceTokens(f: char -> string, g: char -> string, s: string,
                                         pat: string, rep: string)
    requires pat != []
    requires forall x :: x in s ==> TokenReplaced(f(x), g(x), pat, rep)
    ensures Replace(FlatMap(f, s), pat, rep) == FlatMap(g, s)
  {
    if s != [] {
      var t, rest := f(s[0]), FlatMap(f, s[1..]);
      assert TokenReplaced(t, g(s[0]), pat, rep);
      ReplaceTokens(f, g, s[1..], pat, rep);
      if t == pat && g(s[0]) == rep {
        ReplaceMatch(rest, pat, rep);
      } else if pat[0] !in t {
        ReplaceVerbatim(t, rest, pat, rep);
      } else {
        ReplacePair(t, rest, pat, rep);
      }
    }
  }

  /** `s` holds `pat` starting at index `i`. */
  predicate MatchAt(s: string, pat: string, i: int)
  {
    0 <= i && i + |pat| <= |s| && s[i..i + |pat|] == pat
  }

  /** A text starts with its first part, and what follows that part is the rest. */
  lemma LeadMatch(lead: string, x: string)
    ensures MatchAt(lead + x, lead, 0) && (lead + x)[|lead|..] == x
  {
    assert (lead + x)[..|lead|] == lead;
  }

  /** Past a first part, a match is a match at the head of the rest. */
  lemma MatchShift(a: string, x: string, pat: string)
    ensures MatchAt(a + x, pat, |a|) <==> MatchAt(x, pat, 0)
  {
    if |a| + |pat| <= |a + x| {
      assert (a + x)[|a|..|a| + |pat|] == x[..|pat|];
    }
  }

  /** A text that differs from `pat` at index `k`, or ends before it, does not start with it. */
  lemma Mismatch(s: string, pat: string, k: int)
    requires 0 <= k < |pat| && (k >= |s| || s[k] != pat[k])
    ensures !MatchAt(s, pat, 0)
  {
    if |pat| <= |s| {
      assert s[..|pat|][k] == s[k];
    }
  }

  /** A match inside a text is still there once text is appended. */
  lemma MatchAppend(a: string, b: string, pat: string, i: int)
    requires MatchAt(a, pat, i)
    ensures MatchAt(a + b, pat, i)
  {
    assert (a + b)[i..i + |pat|] == a[i..i + |pat|];
  }

  /** A match inside a text is still there once text is prepended, the index shifted. */
  lemma MatchPrepend(a: string, b: string, pat: string, j: int)
    requires MatchAt(b, pat, j)
    ensures MatchAt(a + b, pat, |a| + j)
  {
    assert (a + b)[|a| + j..|a| + j + |pat|] == b[j..j + |pat|];
  }

  /** A text whose first part differs from `pat` at index `k` does not start with `pat`. */
  lemma MismatchLead(lead: string, x: string, pat: string, k: int)
    requires 0 <= k < |lead| && k < |pat| && lead[k] != pat[k]
    ensures !MatchAt(lead + x, pat, 0)
  {
    Mismatch(lead + x, pat, k);
  }

  /** With the same first part, one text starts with another exactly when the rests do. */
  lemma MatchShiftHead(a: string, x: string, y: string)
    ensures MatchAt(a + x, a + y, 0) <==> MatchAt(x, y, 0)
  {
    if |y| <= |x| {
      var u := x[..|y|];
      assert (a + x)[..|a + y|] == a + u;
      assert (a + u)[|a|..] == u && (a + y)[|a|..] == y;
    }
  }

  /** `s.indexOf(pat, from)` in Java for a non-empty `pat`: the least index at or after `from`
      where `pat` occurs in `s`, or -1 when there is none. */
  function IndexOf(s: string, pat: string, from: nat): (r: int)
    requires pat != []
    ensures r == -1 || (from <= r && MatchAt(s, pat, r))
    ensures forall i :: from <= i && (r == -1 || i < r) ==> !MatchAt(s, pat, i)
    decreases |s| - from
  {
    if from + |pat| > |s| then -1
    else if s[from..from + |pat|] == pat then from
    else IndexOf(s, pat, from + 1)
  }

  /** A match with no match before it, from `from` on, is what IndexOf finds. */
  lemma IndexOfAt(s: string, pat: string, from: nat, i: int)
    requires pat != [] && from <= i && MatchAt(s, pat, i)
    requires forall j :: from <= j < i ==> !MatchAt(s, pat, j)
    ensures IndexOf(s, pat, from) == i
  {
  }

  /** A character that does not occur from `from` on is not found. */
  lemma IndexOfAbsent(s: string, c: char, from: nat)
    requires forall j :: from <= j < |s| ==> s[j] != c
    ensures IndexOf(s, [c], from) == -1
  {
    forall j | from <= j < |s|
      ensures !MatchAt(s, [c], j)
    {
      assert s[j..j + 1] == [s[j]];
    }
  }

  /** The character a backslash escape stands for, as in section 7 of RFC 8259 and in
      JavaScript string literals, for the escapes this code produces: `\n`, `\r` and `\t`
      stand for line feed, carriage return and tab, any other escaped character for itself. */
  function Unescaped(e: char): char
  {
    if e == 'n' then '\n' else if e == 'r' then '\r' else if e == 't' then '\t' else e
  }

  /** A reference reader for the body of a string literal closed by the quote `q`: decodes
      backslash escapes up to the first unescaped `q` and returns the decoded text with what
      follows the closing quote, or None when the literal is not closed. */
  function ReadQuoted(s: string, q: char): (r: Option<(string, string)>)
    requires q != '\\'
    ensures r.Some? ==> |r.value.1| < |s|
    decreases |s|
  {
    if |s| == 0 then None
    else if s[0] == q then Some(([], s[1..]))
    else if s[0] == '\\' then
      if |s| < 2 then None
      else match ReadQuoted(s[2..], q)
        case None => None
        case Some((text, rest)) => Some(([Unescaped(s[1])] + text, rest))
    else match ReadQuoted(s[1..], q)
      case None => None
      case Some((text, rest)) => Some(([s[0]] + text, rest))
  }

  /** The image `t` of character `x` is read back as `x` inside a literal quoted by `q`. */
  predicate ReadsAs(t: string, x: char, q: char)
  {
    (t == [x] && x != q && x != '\\') || (|t| == 2 && t[0] == '\\' && Unescaped(t[1]) == x)
  }

  /** Reading the literal `FlatMap(f, s)` closed by `q` gives back `s` and whatever follows. */
  lemma {:induction false} ReadBackFlatMap(f: char -> string, s: string, q: char, rest: string)
    requires q != '\\'
    requires forall x :: x in s ==> ReadsAs(f(x), x, q)
    ensures ReadQuoted(FlatMap(f, s) + [q] + rest, q) == Some((s, rest))
  {
    if s == [] {
      assert FlatMap(f, s) + [q] + rest == [q] + rest;
      assert ([q] + rest)[1..] == rest;
    } else {
      var t, tail := f(s[0]), FlatMap(f, s[1..]) + [q] + rest;
      assert FlatMap(f, s) == t + FlatMap(f, s[1..]);
      Assoc(t, FlatMap(f, s[1..]), [q]);
      Assoc(t, FlatMap(f, s[1..]) + [q], rest);
      assert ReadsAs(t, s[0], q);
      ReadBackFlatMap(f, s[1..], q, rest);
      ReadStep(t, s[0], q, tail, s[1..], rest);
      assert s == [s[0]] + s[1..];
    }
  }

  /** The image of `x`, followed by a literal read as `text`, is read as `x` then `text`. */
  lemma ReadStep(t: string, x: char, q: char, tail: string, text: string, rest: string)
    requires q != '\\' && ReadsAs(t, x, q) && ReadQuoted(tail, q) == Some((text, rest))
    ensures ReadQuoted(t + tail, q) == Some(([x] + text, rest))
  {
    if t == [x] && x != q && x != '\\' {
      assert (t + tail)[0] == x && (t + tail)[1..] == tail;
    } else {
      assert (t + tail)[0] == '\\' && (t + tail)[1] == t[1] && (t + tail)[2..] == tail;
    }
  }

  /** A literal body without quote or backslash is read back unchanged. */
  lemma ReadPlain(s: string, q: char, rest: string)
    requires q != '\\' && q !in s && '\\' !in s
    ensures ReadQuoted(s + [q] + rest, q) == Some((s, rest))
  {
    FlatMapIdentity(Single, s);
    ReadBackFlatMap(Single, s, q, rest);
  }
}
