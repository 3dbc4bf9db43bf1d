/**
 * The PHP string built-ins the plugin relies on: explode, implode, dirname and the
 * array form of strtr, each restricted to the way the plugin calls it.
 */
module PhpText {
  import opened Wrappers

  /** explode($delimiter, $s) for a one-character delimiter. */
  function Explode(delimiter: char, s: string): (pieces: seq<string>)
    ensures |pieces| >= 1
    ensures forall i :: 0 <= i < |pieces| ==> delimiter !in pieces[i]
  {
    if s == [] then [""]
    else
      var rest := Explode(delimiter, s[1..]);
      if s[0] == delimiter then [""] + rest
      else [[s[0]] + rest[0]] + rest[1..]
  }

  /** implode($glue, $pieces): the pieces in order, with the glue between neighbours. */
  function Implode(glue: string, pieces: seq<string>): (joined: string)
    ensures pieces == [] ==> joined == ""
    ensures pieces != [] ==> pieces[0] <= joined
    ensures |pieces| >= 2 ==> pieces[0] + glue <= joined
  {
    if |pieces| == 0 then ""
    else if |pieces| == 1 then pieces[0]
    else pieces[0] + glue + Implode(glue, pieces[1..])
  }

  /** Joining one more piece adds the glue and that piece at the end. */
  lemma {:induction false} ImplodeAppend(glue: string, pieces: seq<string>, piece: string)
    requires pieces != []
    ensures Implode(glue, pieces + [piece]) == Implode(glue, pieces) + glue + piece
  {
    var all := pieces + [piece];
    if |pieces| == 1 {
      assert all[1..] == [piece];
    } else {
      assert all[1..] == pieces[1..] + [piece];
      ImplodeAppend(glue, pieces[1..], piece);
    }
  }

  /** Joining the pieces of explode with the delimiter gives back the original string. */
  lemma {:induction false} ImplodeExplode(delimiter: char, s: string)
    ensures Implode([delimiter], Explode(delimiter, s)) == s
  {
    if s != [] {
      var rest := Explode(delimiter, s[1..]);
      ImplodeExplode(delimiter, s[1..]);
      if s[0] == delimiter {
        assert ([""] + rest)[1..] == rest;
      } else if |rest| > 1 {
        assert ([[s[0]] + rest[0]] + rest[1..])[1..] == rest[1..];
      }
    }
  }

  lemma {:induction false} ExplodeWithoutDelimiter(delimiter: char, s: string)
    requires delimiter !in s
    ensures Explode(delimiter, s) == [s]
  {
    if s != [] {
      assert delimiter !in s[1..];
      ExplodeWithoutDelimiter(delimiter, s[1..]);
      assert [s[0]] + s[1..] == s;
    }
  }

  lemma {:induction false} ExplodeFirstPiece(delimiter: char, piece: string, tail: string)
    requires delimiter !in piece
    ensures Explode(delimiter, piece + [delimiter] + tail) == [piece] + Explode(delimiter, tail)
  {
    var s := piece + [delimiter] + tail;
    if piece == [] {
      assert s[1..] == tail;
    } else {
      assert s[1..] == piece[1..] + [delimiter] + tail;
      ExplodeFirstPiece(delimiter, piece[1..], tail);
      assert [piece[0]] + piece[1..] == piece;
    }
  }

  /**
   * The converse round trip: pieces free of the delimiter, joined with it, split back
   * into the same pieces.
   */
  lemma {:induction false} ExplodeImplode(delimiter: char, pieces: seq<string>)
    requires |pieces| >= 1
    requires forall i :: 0 <= i < |pieces| ==> delimiter !in pieces[i]
    ensures Explode(delimiter, Implode([delimiter], pieces)) == pieces
  {
    if |pieces| == 1 {
      ExplodeWithoutDelimiter(delimiter, pieces[0]);
    } else {
      ExplodeImplode(delimiter, pieces[1..]);
      ExplodeFirstPiece(delimiter, pieces[0], Implode([delimiter], pieces[1..]));
      assert pieces == [pieces[0]] + pieces[1..];
    }
  }

  /**
   * The first piece of explode is the text before the first delimiter: a prefix of `s`
   * without the delimiter, that is either all of `s` or followed by the delimiter.
   */
  lemma {:induction false} ExplodeHead(delimiter: char, s: string)
    ensures Explode(delimiter, s)[0] <= s
    ensures delimiter !in Explode(delimiter, s)[0]
    ensures |Explode(delimiter, s)[0]| == |s| || s[|Explode(delimiter, s)[0]|] == delimiter
  {
    if s != [] && s[0] != delimiter {
      ExplodeHead(delimiter, s[1..]);
    }
  }

  /** `s` without its trailing run of `c`. */
  function StripTrailing(c: char, s: string): (r: string)
    ensures r <= s
    ensures r == [] || r[|r| - 1] != c
    ensures forall i :: |r| <= i < |s| ==> s[i] == c
  {
    if s != [] && s[|s| - 1] == c then StripTrailing(c, s[..|s| - 1]) else s
  }

  /** Index of the last `c` in `s`. */
  function LastIndexOf(c: char, s: string): (r: Option<nat>)
    ensures r.Some? ==> r.value < |s| && s[r.value] == c && c !in s[r.value + 1..]
    ensures r.None? ==> c !in s
  {
    if s == [] then None
    else if s[|s| - 1] == c then Some(|s| - 1)
    else
      var r := LastIndexOf(c, s[..|s| - 1]);
      assert s == s[..|s| - 1] + [s[|s| - 1]];
      r
  }

  /**
   * dirname($path) for '/'-separated paths: trailing slashes are ignored, a path
   * without a slash lies in ".", and the parent of a top-level entry is "/".
   */
  function Dirname(path: string): (dir: string)
    ensures dir == [] <==> path == []
    ensures path != [] ==> dir == "/" || dir == "." || (dir[|dir| - 1] != '/' && dir < path)
  {
    if path == [] then []
    else
      var trimmed := StripTrailing('/', path);
      if trimmed == [] then "/"
      else match LastIndexOf('/', trimmed)
        case None => "."
        case Some(i) =>
          var parent := StripTrailing('/', trimmed[..i]);
          if parent == [] then "/" else parent
  }

  lemma {:induction false} LastIndexOfAfter(c: char, front: string, back: string)
    requires c !in back
    ensures LastIndexOf(c, front + [c] + back) == Some(|front|)
    decreases |back|
  {
    var s := front + [c] + back;
    if back != [] {
      assert s[..|s| - 1] == front + [c] + back[..|back| - 1];
      LastIndexOfAfter(c, front, back[..|back| - 1]);
    }
  }

  /** A file named `name` placed in directory `dir` has `dir` as its dirname. */
  lemma DirnameOfEntry(dir: string, name: string)
    requires dir != [] && (dir == "/" || dir[|dir| - 1] != '/')
    requires name != [] && '/' !in name
    ensures Dirname(dir + "/" + name) == dir
  {
    var path := dir + "/" + name;
    assert path[|path| - 1] == name[|name| - 1];
    assert StripTrailing('/', path) == path;
    LastIndexOfAfter('/', dir, name);
    assert path[..|dir|] == dir;
  }

  /** Every key of the table is non-empty. */
  predicate NonEmptyKeys(pairs: seq<(string, string)>)
  {
    forall j :: 0 <= j < |pairs| ==> pairs[j].0 != []
  }

  /**
   * strtr($s, $pairs) for a table whose keys are all non-empty: one left-to-right pass;
   * at each position the longest key that occurs there is replaced and the scan resumes
   * after it, so replacement text is never scanned again. An empty table leaves the
   * text unchanged.
   */
  function Strtr(s: string, pairs: seq<(string, string)>): (r: string)
    requires NonEmptyKeys(pairs)
    ensures pairs == [] ==> r == s
    decreases |s|
  {
    if s == [] then []
    else match LongestKeyAt(s, pairs, |pairs|)
      case Some(k) => pairs[k].1 + Strtr(s[|pairs[k].0|..], pairs)
      case None => [s[0]] + Strtr(s[1..], pairs)
  }

  /** The index, among the first `n` pairs, of the longest non-empty key that starts `s`. */
  function LongestKeyAt(s: string, pairs: seq<(string, string)>, n: nat): (k: Option<nat>)
    requires n <= |pairs|
    ensures k.Some? ==> k.value < n && pairs[k.value].0 != [] && pairs[k.value].0 <= s
    ensures k.Some? ==> forall j :: 0 <= j < n && pairs[j].0 != [] && pairs[j].0 <= s ==>
      |pairs[j].0| <= |pairs[k.value].0|
    ensures k.None? ==> forall j :: 0 <= j < n ==> pairs[j].0 == [] || !(pairs[j].0 <= s)
  {
    if n == 0 then None
    else
      var best := LongestKeyAt(s, pairs, n - 1);
      var key := pairs[n - 1].0;
      if key != [] && key <= s && (best.None? || |pairs[best.value].0| < |key|) then Some(n - 1)
      else best
  }

  /** Every key of `pairs` starts with `c`. */
  predicate KeysStartWith(pairs: seq<(string, string)>, c: char)
  {
    forall j :: 0 <= j < |pairs| ==> pairs[j].0 != [] && pairs[j].0[0] == c
  }

  /** Text that holds no key's first character passes through strtr unchanged. */
  lemma {:induction false} StrtrSkipsLiteral(lit: string, rest: string, pairs: seq<(string, string)>, c: char)
    requires KeysStartWith(pairs, c)
    requires c !in lit
    ensures Strtr(lit + rest, pairs) == lit + Strtr(rest, pairs)
  {
    if lit != [] {
      var s := lit + rest;
      assert LongestKeyAt(s, pairs, |pairs|).None?;
      assert Strtr(s, pairs) == [s[0]] + Strtr(s[1..], pairs);
      assert s[1..] == lit[1..] + rest;
      StrtrSkipsLiteral(lit[1..], rest, pairs, c);
      assert [lit[0]] + (lit[1..] + Strtr(rest, pairs)) == lit + Strtr(rest, pairs);
    } else {
      assert lit + rest == rest;
    }
  }

  /** No key of `pairs` is a prefix of another. */
  predicate PrefixFree(pairs: seq<(string, string)>)
  {
    forall i, j :: 0 <= i < |pairs| && 0 <= j < |pairs| && i != j ==> !(pairs[i].0 <= pairs[j].0)
  }

  /** A key at the front of the text is replaced by its value, and the scan goes on after it. */
  lemma StrtrReplacesKey(i: nat, rest: string, pairs: seq<(string, string)>)
    requires i < |pairs| && NonEmptyKeys(pairs)
    requires PrefixFree(pairs)
    ensures Strtr(pairs[i].0 + rest, pairs) == pairs[i].1 + Strtr(rest, pairs)
  {
    var key := pairs[i].0;
    var s := key + rest;
    assert key <= s;
    assert LongestKeyAt(s, pairs, |pairs|) == Some(i);
    assert s[|key|..] == rest;
  }

  /** The text between a fixed prefix and a fixed suffix determines the whole. */
  lemma UnwrapMiddle(prefix: string, a: string, b: string, suffix: string)
    ensures prefix + a + suffix == prefix + b + suffix ==> a == b
  {
    if prefix + a + suffix == prefix + b + suffix {
      assert |a| == |b|;
      assert a == (prefix + a + suffix)[|prefix|..|prefix| + |a|];
      assert b == (prefix + b + suffix)[|prefix|..|prefix| + |b|];
    }
  }
}
