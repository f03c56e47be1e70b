/** The string helpers the generator relies on: PHP's `ucfirst`, `explode`,
    `rtrim` with one character, and the "append each part followed by a
    separator" loops that build namespaces, paths and the class text. */
module Text {

  /** ASCII upper-casing of one character (locale-independent `ucfirst`). */
  function UpperAscii(c: char): (r: char)
    ensures 'a' <= c <= 'z' ==> 'A' <= r <= 'Z' && r as int == c as int - ('a' as int - 'A' as int)
    ensures !('a' <= c <= 'z') ==> r == c
  {
    if 'a' <= c <= 'z' then (c as int - 32) as char else c
  }

  /** PHP `ucfirst`: the first character upper-cased, the rest unchanged. */
  function Ucfirst(s: string): (r: string)
    ensures |r| == |s|
    ensures |s| > 0 ==> r[1..] == s[1..]
    ensures |s| > 0 ==> if 'a' <= s[0] <= 'z' then r[0] as int == s[0] as int - ('a' as int - 'A' as int)
                        else r[0] == s[0]
  {
    if s == [] then [] else [UpperAscii(s[0])] + s[1..]
  }

  /** `s` starts with `prefix`, compared one character at a time. */
  predicate HasPrefix(s: string, prefix: string)
    ensures HasPrefix(s, prefix) ==> |prefix| <= |s|
    decreases |prefix|
  {
    |prefix| == 0 || (|s| > 0 && s[0] == prefix[0] && HasPrefix(s[1..], prefix[1..]))
  }

  /** The character-wise test agrees with comparing the leading slice. */
  lemma {:induction false} HasPrefixIsSlice(s: string, prefix: string)
    ensures HasPrefix(s, prefix) <==> |prefix| <= |s| && s[..|prefix|] == prefix
    decreases |prefix|
  {
    if |prefix| > 0 && |s| > 0 {
      HasPrefixIsSlice(s[1..], prefix[1..]);
      if |prefix| <= |s| {
        assert s[..|prefix|] == [s[0]] + s[1..][..|prefix| - 1];
        assert prefix == [prefix[0]] + prefix[1..];
      }
    }
  }

  lemma {:induction false} PrefixOfAppend(m: string, x: string)
    ensures HasPrefix(m + x, m)
    decreases |m|
  {
    if |m| > 0 {
      assert (m + x)[1..] == m[1..] + x;
      PrefixOfAppend(m[1..], x);
    }
  }

  /** A mismatch at position `k` rules the prefix out. */
  lemma {:induction false} NotPrefixAt(s: string, p: string, k: nat)
    requires k < |p| && k < |s| && s[k] != p[k]
    ensures !HasPrefix(s, p)
    decreases k
  {
    if k > 0 {
      NotPrefixAt(s[1..], p[1..], k - 1);
    }
  }

  /** A common leading part does not change whether one starts the other. */
  lemma {:induction false} PrefixShift(m: string, rest: string, w: string)
    ensures HasPrefix(m + rest, m + w) <==> HasPrefix(rest, w)
    decreases |m|
  {
    if |m| > 0 {
      assert (m + rest)[1..] == m[1..] + rest;
      assert (m + w)[1..] == m[1..] + w;
      PrefixShift(m[1..], rest, w);
    } else {
      assert m + rest == rest && m + w == w;
    }
  }

  /** PHP `explode(d, s)`: the maximal runs of `s` between occurrences of `d`,
      always at least one (possibly empty) piece. */
  function Explode(d: char, s: string): (parts: seq<string>)
    ensures |parts| >= 1
    ensures forall i :: 0 <= i < |parts| ==> d !in parts[i]
    decreases |s|
  {
    if s == [] then [""]
    else
      var r := Explode(d, s[..|s| - 1]);
      if s[|s| - 1] == d then r + [""]
      else r[..|r| - 1] + [r[|r| - 1] + [s[|s| - 1]]]
  }

  /** PHP `implode(d, parts)` on a non-empty list. */
  function Join(d: char, parts: seq<string>): string
    requires |parts| >= 1
  {
    if |parts| == 1 then parts[0]
    else Join(d, parts[..|parts| - 1]) + [d] + parts[|parts| - 1]
  }

  /** Each part followed by `sep`, concatenated: what a loop of
      `$acc .= $part.$sep` leaves in `$acc`. */
  function ConcatEach(parts: seq<string>, sep: string): string {
    if parts == [] then ""
    else ConcatEach(parts[..|parts| - 1], sep) + parts[|parts| - 1] + sep
  }

  /** PHP `rtrim(s, c)` for a single character `c`. */
  function RTrim(s: string, c: char): (r: string)
    ensures |r| <= |s| && r == s[..|r|]
    ensures r == [] || r[|r| - 1] != c
    ensures forall i :: |r| <= i < |s| ==> s[i] == c
  {
    if s != [] && s[|s| - 1] == c then RTrim(s[..|s| - 1], c) else s
  }

  /** Every occurrence of `from` in `s` replaced by `to`. */
  function Replace(s: string, from: char, to: char): string {
    seq(|s|, i requires 0 <= i < |s| => if s[i] == from then to else s[i])
  }

  /** `explode` undoes `implode`. */
  lemma {:induction false} JoinExplode(d: char, s: string)
    ensures Join(d, Explode(d, s)) == s
    decreases |s|
  {
    if s != [] {
      var init, c := s[..|s| - 1], s[|s| - 1];
      var r := Explode(d, init);
      JoinExplode(d, init);
      if c == d {
        assert (r + [""])[..|r|] == r;
      } else {
        var r' := r[..|r| - 1] + [r[|r| - 1] + [c]];
        assert r'[..|r'| - 1] == r[..|r| - 1];
        if |r| > 1 {
          assert r[..|r| - 1][..|r| - 2] == r[..|r| - 2];
        }
      }
      assert init + [c] == s;
    }
  }

  /** Appending text without a delimiter extends the last piece. */
  lemma {:induction false} ExplodeAppendPlain(d: char, s: string, t: string)
    requires d !in t
    ensures var e := Explode(d, s);
            Explode(d, s + t) == e[..|e| - 1] + [e[|e| - 1] + t]
    decreases |t|
  {
    var e := Explode(d, s);
    if t == [] {
      assert s + t == s;
      assert e[|e| - 1] + t == e[|e| - 1];
      assert e[..|e| - 1] + [e[|e| - 1]] == e;
    } else {
      var t', c := t[..|t| - 1], t[|t| - 1];
      ExplodeAppendPlain(d, s, t');
      assert (s + t)[..|s + t| - 1] == s + t';
      assert e[|e| - 1] + t' + [c] == e[|e| - 1] + t;
    }
  }

  /** Appending the delimiter starts a new, empty piece. */
  lemma ExplodeAppendDelim(d: char, s: string)
    ensures Explode(d, s + [d]) == Explode(d, s) + [""]
  {
    assert (s + [d])[..|s|] == s;
  }

  /** `implode` undoes `explode` when no piece contains the delimiter. */
  lemma {:induction false} ExplodeJoin(d: char, parts: seq<string>)
    requires |parts| >= 1
    requires forall i :: 0 <= i < |parts| ==> d !in parts[i]
    ensures Explode(d, Join(d, parts)) == parts
    decreases |parts|
  {
    var x := parts[|parts| - 1];
    if |parts| == 1 {
      ExplodeAppendPlain(d, "", x);
      assert "" + x == x;
    } else {
      var init := parts[..|parts| - 1];
      assert forall i :: 0 <= i < |init| ==> init[i] == parts[i];
      assert d !in x;
      ExplodeJoin(d, init);
      ExplodeAppendPiece(d, Join(d, init), init, x);
      assert init + [x] == parts;
      assert Join(d, parts) == Join(d, init) + [d] + x;
    }
  }

  /** One more delimiter and piece after text that splits into `pieces`. */
  lemma ExplodeAppendPiece(d: char, j: string, pieces: seq<string>, x: string)
    requires Explode(d, j) == pieces && d !in x
    ensures Explode(d, j + [d] + x) == pieces + [x]
  {
    ExplodeAppendDelim(d, j);
    ExplodeAppendPlain(d, j + [d], x);
    var e := pieces + [""];
    assert e[..|e| - 1] == pieces;
    assert e[|e| - 1] + x == x;
  }

  /** Concatenating each part with its separator distributes over `+`. */
  lemma {:induction false} ConcatEachAppend(a: seq<string>, b: seq<string>, sep: string)
    ensures ConcatEach(a + b, sep) == ConcatEach(a, sep) + ConcatEach(b, sep)
    decreases |b|
  {
    if b == [] {
      assert a + b == a;
    } else {
      var b', x := b[..|b| - 1], b[|b| - 1];
      ConcatEachAppend(a, b', sep);
      assert (a + b)[..|a + b| - 1] == a + b' && (a + b)[|a + b| - 1] == x;
      calc {
        ConcatEach(a + b, sep);
        ConcatEach(a + b', sep) + x + sep;
        ConcatEach(a, sep) + ConcatEach(b', sep) + x + sep;
        ConcatEach(a, sep) + (ConcatEach(b', sep) + x + sep);
      }
    }
  }

  /** With a one-character separator, concatenating each part followed by it
      is the `implode` of the parts plus one trailing separator. */
  lemma {:induction false} ConcatEachIsJoin(parts: seq<string>, d: char)
    requires |parts| >= 1
    ensures ConcatEach(parts, [d]) == Join(d, parts) + [d]
    decreases |parts|
  {
    var init := parts[..|parts| - 1];
    if |parts| == 1 {
      assert init == [];
    } else {
      ConcatEachIsJoin(init, d);
    }
  }

  /** Splitting text made of lines each ending with `d` recovers the lines,
      followed by the empty piece after the final `d`. */
  lemma ExplodeConcatEach(d: char, lines: seq<string>)
    requires forall i :: 0 <= i < |lines| ==> d !in lines[i]
    ensures Explode(d, ConcatEach(lines, [d])) == lines + [""]
  {
    if lines != [] {
      ConcatEachIsJoin(lines, d);
      var all := lines + [""];
      assert all[..|all| - 1] == lines;
      assert Join(d, all) == Join(d, lines) + [d];
      ExplodeJoin(d, all);
    }
  }

  /** Stripping trailing `c` from text that ends with one `c` after a last
      character different from `c` leaves exactly that text. */
  lemma RTrimOne(s: string, c: char)
    requires s != [] && s[|s| - 1] != c
    ensures RTrim(s + [c], c) == s
  {
    assert (s + [c])[..|s|] == s;
  }

  lemma ReplaceAppend(a: string, b: string, from: char, to: char)
    ensures Replace(a + b, from, to) == Replace(a, from, to) + Replace(b, from, to)
  {
    assert forall i :: 0 <= i < |a + b| ==>
      Replace(a + b, from, to)[i] == (Replace(a, from, to) + Replace(b, from, to))[i];
  }

  /** Text without `from` is left as it is. */
  lemma ReplaceAbsent(s: string, from: char, to: char)
    requires from !in s
    ensures Replace(s, from, to) == s
  {
  }

  /** Replacing the delimiter of an `implode` by another yields the `implode`
      with the other delimiter, when no part contains either. */
  lemma {:induction false} ReplaceJoin(parts: seq<string>, d: char, e: char)
    requires |parts| >= 1
    requires forall i :: 0 <= i < |parts| ==> d !in parts[i]
    ensures Replace(Join(d, parts), d, e) == Join(e, parts)
    decreases |parts|
  {
    var x := parts[|parts| - 1];
    assert Replace(x, d, e) == x;
    if |parts| > 1 {
      var init := parts[..|parts| - 1];
      ReplaceJoin(init, d, e);
      var a, b := Join(d, init), Join(e, init);
      assert Replace(a + [d] + x, d, e) == Replace(a, d, e) + [e] + Replace(x, d, e);
    }
  }
}
