/**
 * Text utilities shared by the renderers: joining and splitting strings the way
 * JavaScript's `Array.prototype.join` and `String.prototype.split` do, flattening
 * nested lists, de-duplicating keys (first occurrence kept), and a scanner for
 * the angle brackets of generic type expressions.
 */
module Text {
  import opened Wrappers

  /** `parts.join(sep)`. */
  function JoinWith(parts: seq<string>, sep: string): (r: string)
    ensures |parts| == 0 ==> r == ""
    ensures |parts| > 0 ==> parts[0] <= r
    decreases |parts|
  {
    if |parts| == 0 then ""
    else if |parts| == 1 then parts[0]
    else parts[0] + sep + JoinWith(parts[1..], sep)
  }

  /** Appending one more part to a joined list adds the separator only between parts. */
  lemma {:induction false} JoinAppend(parts: seq<string>, p: string, sep: string)
    ensures JoinWith(parts + [p], sep)
            == if |parts| == 0 then p else JoinWith(parts, sep) + sep + p
    decreases |parts|
  {
    if |parts| >= 2 {
      calc {
        JoinWith(parts + [p], sep);
        { assert (parts + [p])[1..] == parts[1..] + [p]; }
        parts[0] + sep + JoinWith(parts[1..] + [p], sep);
        { JoinAppend(parts[1..], p, sep); }
        parts[0] + sep + (JoinWith(parts[1..], sep) + sep + p);
      }
    } else if |parts| == 1 {
      assert (parts + [p])[1..] == [p];
    }
  }

  /** Concatenation is associative; stated once so that callers need not re-derive it element by element. */
  lemma AppendAssoc<T>(a: seq<T>, b: seq<T>, c: seq<T>)
    ensures (a + b) + c == a + (b + c)
  {
  }

  /** A non-empty list is its front followed by its last element. */
  lemma SplitLast<T>(s: seq<T>)
    requires |s| > 0
    ensures s == s[..|s| - 1] + [s[|s| - 1]]
  {
  }

  /** The middle part of a three-part concatenation, read back by position. */
  lemma InfixAt<T>(a: seq<T>, b: seq<T>, c: seq<T>)
    ensures (a + b + c)[|a|..|a| + |b|] == b
  {
  }

  /** The last part of a concatenation, read back by position. */
  /** A block that follows `before` at the start of `s` is found there by slicing. */
  lemma BlockAt<T>(s: seq<T>, before: seq<T>, block: seq<T>)
    requires before + block <= s
    ensures |before| + |block| <= |s|
    ensures s[|before|..|before| + |block|] == block
  {
    assert s[|before|..|before| + |block|] == (before + block)[|before|..];
  }

  lemma SuffixLast<T>(a: seq<T>, b: seq<T>)
    requires |b| > 0
    ensures (a + b)[|a + b| - 1] == b[|b| - 1]
  {
  }

  /**
   * A non-empty block that follows `before` at the start of `s` occupies the
   * positions from `|before|` to `|upto|`, and `s` has its last element there.
   */
  lemma BlockIn<T>(s: seq<T>, before: seq<T>, block: seq<T>, upto: seq<T>)
    requires upto == before + block && upto <= s && |block| > 0
    ensures |before| < |upto| <= |s|
    ensures s[|before|..|upto|] == block
    ensures s[|upto| - 1] == block[|block| - 1]
  {
    BlockAt(s, before, block);
    assert s[|upto| - 1] == upto[|upto| - 1];
  }

  lemma SuffixAt<T>(a: seq<T>, b: seq<T>)
    ensures (a + b)[|a + b| - |b|..] == b
  {
  }

  /** `s.split(sep)` for a one-character separator: always at least one part. */
  function Split(s: string, sep: char): (parts: seq<string>)
    ensures |parts| >= 1
    ensures forall i :: 0 <= i < |parts| ==> sep !in parts[i]
    decreases |s|
  {
    if |s| == 0 then [""]
    else
      var rest := Split(s[1..], sep);
      if s[0] == sep then [""] + rest
      else [[s[0]] + rest[0]] + rest[1..]
  }

  /** Splitting and re-joining with the same separator gives the text back. */
  lemma {:induction false} JoinSplit(s: string, sep: char)
    ensures JoinWith(Split(s, sep), [sep]) == s
    decreases |s|
  {
    if |s| > 0 {
      var rest := Split(s[1..], sep);
      JoinSplit(s[1..], sep);
      if s[0] == sep {
        assert Split(s, sep) == [""] + rest;
        assert ([""] + rest)[1..] == rest;
        assert s == [sep] + s[1..];
      } else {
        var parts := [[s[0]] + rest[0]] + rest[1..];
        assert Split(s, sep) == parts;
        if |rest| == 1 {
          assert s == [s[0]] + s[1..];
        } else {
          assert parts[1..] == rest[1..];
          assert JoinWith(rest, [sep]) == rest[0] + [sep] + JoinWith(rest[1..], [sep]);
          assert s == [s[0]] + s[1..];
        }
      }
    }
  }

  /** Re-splitting joined parts gives them back, provided no part contains the separator. */
  lemma {:induction false} SplitJoin(parts: seq<string>, sep: char)
    requires |parts| >= 1
    requires forall i :: 0 <= i < |parts| ==> sep !in parts[i]
    ensures Split(JoinWith(parts, [sep]), sep) == parts
    decreases |parts|, |parts[0]|
  {
    var p := parts[0];
    if |p| == 0 {
      if |parts| > 1 {
        var tail := JoinWith(parts[1..], [sep]);
        assert JoinWith(parts, [sep]) == [sep] + tail;
        assert ([sep] + tail)[1..] == tail;
        SplitJoin(parts[1..], sep);
        assert parts == [""] + parts[1..];
      }
    } else {
      var shorter := [p[1..]] + parts[1..];
      assert forall i :: 0 <= i < |shorter| ==> sep !in shorter[i] by {
        forall i | 0 <= i < |shorter| ensures sep !in shorter[i] {
          if i == 0 {
            assert forall c :: c in p[1..] ==> c in p;
          } else {
            assert shorter[i] == parts[i];
          }
        }
      }
      SplitJoin(shorter, sep);
      var j := JoinWith(parts, [sep]);
      var js := JoinWith(shorter, [sep]);
      if |parts| == 1 {
        assert j == p && js == p[1..];
      } else {
        assert shorter[1..] == parts[1..];
        assert j == p + [sep] + JoinWith(parts[1..], [sep]);
        assert js == p[1..] + [sep] + JoinWith(parts[1..], [sep]);
      }
      assert j[0] == p[0] && j[1..] == js;
      assert p[0] != sep by { assert p[0] in p; }
      assert p == [p[0]] + p[1..];
      assert parts == [p] + parts[1..];
    }
  }

  /** The concatenation of a list of lists. */
  function Flatten<T>(xss: seq<seq<T>>): (r: seq<T>)
    decreases |xss|
  {
    if |xss| == 0 then [] else Flatten(xss[..|xss| - 1]) + xss[|xss| - 1]
  }

  /** The concatenation of `f(x)` for every `x` of `xs`, in order. */
  function FlatMap<T, U>(f: T -> seq<U>, xs: seq<T>): seq<U>
    decreases |xs|
  {
    if |xs| == 0 then [] else FlatMap(f, xs[..|xs| - 1]) + f(xs[|xs| - 1])
  }

  lemma FlatMapStep<T, U>(f: T -> seq<U>, xs: seq<T>, i: nat)
    requires i < |xs|
    ensures FlatMap(f, xs[..i + 1]) == FlatMap(f, xs[..i]) + f(xs[i])
  {
    assert xs[..i + 1][..i] == xs[..i];
  }

  /** The part for the first `k` items begins the whole. */
  lemma {:induction false} FlatMapIsPrefix<T, U>(f: T -> seq<U>, xs: seq<T>, k: nat)
    requires k <= |xs|
    ensures FlatMap(f, xs[..k]) <= FlatMap(f, xs)
    decreases |xs|
  {
    var n := |xs|;
    if k < n {
      var front := xs[..n - 1];
      assert xs[..k] == front[..k];
      FlatMapIsPrefix(f, front, k);
      assert xs[..n] == xs;
    } else {
      assert xs[..k] == xs;
    }
  }

  /** Item `i` owns the positions between the parts for the items before it and up to it. */
  lemma FlatMapBlockAt<T, U>(f: T -> seq<U>, xs: seq<T>, i: nat)
    requires i < |xs| && |f(xs[i])| > 0
    ensures var whole := FlatMap(f, xs);
      var start := |FlatMap(f, xs[..i])|;
      var next := |FlatMap(f, xs[..i + 1])|;
      && start < next <= |whole|
      && whole[start..next] == f(xs[i])
      && whole[next - 1] == f(xs[i])[|f(xs[i])| - 1]
  {
    FlatMapStep(f, xs, i);
    FlatMapIsPrefix(f, xs, i + 1);
    BlockIn(FlatMap(f, xs), FlatMap(f, xs[..i]), f(xs[i]), FlatMap(f, xs[..i + 1]));
  }

  /** The whole ends with the last element of the last item's part. */
  lemma FlatMapLast<T, U>(f: T -> seq<U>, xs: seq<T>)
    requires |xs| > 0 && |f(xs[|xs| - 1])| > 0
    ensures var whole := FlatMap(f, xs);
      var last := f(xs[|xs| - 1]);
      |whole| > 0 && whole[|whole| - 1] == last[|last| - 1]
  {
    SuffixLast(FlatMap(f, xs[..|xs| - 1]), f(xs[|xs| - 1]));
  }

  /** Every item contributes at least one element. */
  lemma {:induction false} FlatMapLength<T, U>(f: T -> seq<U>, xs: seq<T>)
    requires forall i :: 0 <= i < |xs| ==> |f(xs[i])| > 0
    ensures |FlatMap(f, xs)| >= |xs|
    decreases |xs|
  {
    if |xs| > 0 {
      FlatMapLength(f, xs[..|xs| - 1]);
    }
  }

  /**
   * The keys of a list, each once, in the order of their first occurrence.
   * This is the set of keys of a JavaScript object filled by assigning to
   * `obj[key]` for each key in turn. It is also that object's key order,
   * except that JavaScript lists integer-like keys first, in ascending order.
   */
  function Distinct(s: seq<string>): (r: seq<string>)
    ensures forall x :: x in r <==> x in s
    ensures forall i, j :: 0 <= i < j < |r| ==> r[i] != r[j]
    decreases |s|
  {
    if |s| == 0 then []
    else
      var d := Distinct(s[..|s| - 1]);
      assert forall x :: x in s <==> x in s[..|s| - 1] || x == s[|s| - 1];
      if s[|s| - 1] in d then d else d + [s[|s| - 1]]
  }

  /** No angle bracket in `s`: the text of an identifier or a primitive type name. */
  predicate NoBrackets(s: string) {
    '<' !in s && '>' !in s
  }

  /**
   * Scans `s` from bracket depth `depth`: `None` when some `>` closes a bracket
   * that was never opened, otherwise the depth at the end.
   */
  function Scan(s: string, depth: nat): Option<nat>
    decreases |s|
  {
    if |s| == 0 then Some(depth)
    else if s[0] == '<' then Scan(s[1..], depth + 1)
    else if s[0] == '>' then (if depth == 0 then None else Scan(s[1..], depth - 1))
    else Scan(s[1..], depth)
  }

  /** Every `<` in `s` is closed by a later `>` and no `>` is unmatched. */
  predicate Balanced(s: string) {
    Scan(s, 0) == Some(0)
  }

  lemma {:induction false} ScanAppend(a: string, b: string, depth: nat)
    ensures Scan(a + b, depth)
            == match Scan(a, depth) case None => None case Some(e) => Scan(b, e)
    decreases |a|
  {
    if |a| > 0 {
      assert (a + b)[0] == a[0] && (a + b)[1..] == a[1..] + b;
      if a[0] == '<' {
        ScanAppend(a[1..], b, depth + 1);
      } else if a[0] == '>' {
        if depth > 0 { ScanAppend(a[1..], b, depth - 1); }
      } else {
        ScanAppend(a[1..], b, depth);
      }
    } else {
      assert a + b == b;
    }
  }

  lemma {:induction false} ScanShift(a: string, depth: nat, k: nat)
    requires Scan(a, depth).Some?
    ensures Scan(a, depth + k) == Some(Scan(a, depth).value + k)
    decreases |a|
  {
    if |a| > 0 {
      if a[0] == '<' {
        ScanShift(a[1..], depth + 1, k);
      } else if a[0] == '>' {
        ScanShift(a[1..], depth - 1, k);
      } else {
        ScanShift(a[1..], depth, k);
      }
    }
  }

  lemma {:induction false} NoBracketsScan(s: string, depth: nat)
    requires NoBrackets(s)
    ensures Scan(s, depth) == Some(depth)
    decreases |s|
  {
    if |s| > 0 {
      assert s[0] in s;
      assert forall c :: c in s[1..] ==> c in s;
      NoBracketsScan(s[1..], depth);
    }
  }

  lemma ConcatBalanced(a: string, b: string)
    requires Balanced(a) && Balanced(b)
    ensures Balanced(a + b)
  {
    ScanAppend(a, b, 0);
  }

  /** `head<arg>` is balanced when `head` has no brackets and `arg` is balanced. */
  lemma GenericBalanced(head: string, arg: string)
    requires NoBrackets(head) && Balanced(arg)
    ensures Balanced(head + "<" + arg + ">")
  {
    NoBracketsScan(head, 0);
    ScanAppend(head, "<", 0);
    assert Scan("<", 0) == Some(1) by { assert "<"[1..] == ""; }
    ScanAppend(head + "<", arg, 0);
    ScanShift(arg, 0, 1);
    ScanAppend(head + "<" + arg, ">", 0);
    assert Scan(">", 1) == Some(0) by { assert ">"[1..] == ""; }
  }
}
