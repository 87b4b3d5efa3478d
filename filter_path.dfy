/**
 * Escaping of the subtitle file path before it is embedded in the
 * `subtitles=filename='...'` filter. The source does exactly two textual
 * replacements, in this order: every two-character sequence of backslashes
 * becomes `/`, then every `:` becomes the three characters `\\:`.
 * Python's str.replace scans left to right and never overlaps matches.
 */
module FilterPath {

  /** No two adjacent backslashes anywhere in s. */
  predicate NoBackslashPair(s: string) {
    forall i :: 0 <= i < |s| - 1 ==> !(s[i] == '\\' && s[i + 1] == '\\')
  }

  /** path.replace('\\\\', '/'): each backslash pair becomes a slash. */
  function ReplaceBackslashPairs(s: string): string
    decreases |s|
  {
    if |s| >= 2 && s[0] == '\\' && s[1] == '\\' then "/" + ReplaceBackslashPairs(s[2..])
    else if s == [] then []
    else [s[0]] + ReplaceBackslashPairs(s[1..])
  }

  /** path.replace(':', '\\\\:'): each colon gets two backslashes in front. */
  function EscapeColons(s: string): string
  {
    if s == [] then []
    else (if s[0] == ':' then "\\\\:" else [s[0]]) + EscapeColons(s[1..])
  }

  /** The escaped path that the subtitle fragment embeds. */
  function EscapeFilterPath(path: string): string
  {
    EscapeColons(ReplaceBackslashPairs(path))
  }

  /** Reads back an escaped path: `\\:` stands for `:`, anything else for itself. */
  function UnescapeColons(s: string): string
    decreases |s|
  {
    if |s| >= 3 && s[0] == '\\' && s[1] == '\\' && s[2] == ':' then ":" + UnescapeColons(s[3..])
    else if s == [] then []
    else [s[0]] + UnescapeColons(s[1..])
  }

  /**
   * After the first replacement no backslash pair is left, and the result
   * starts with a backslash exactly when the input starts with a lone one.
   */
  lemma {:induction false} ReplaceLeavesNoPair(s: string)
    ensures NoBackslashPair(ReplaceBackslashPairs(s))
    ensures |s| == 0 <==> |ReplaceBackslashPairs(s)| == 0
    ensures |s| > 0 ==>
      (ReplaceBackslashPairs(s)[0] == '\\' <==> s[0] == '\\' && !(|s| >= 2 && s[1] == '\\'))
    decreases |s|
  {
    if |s| >= 2 && s[0] == '\\' && s[1] == '\\' {
      ReplaceLeavesNoPair(s[2..]);
    } else if s != [] {
      var t := s[1..];
      ReplaceLeavesNoPair(t);
      var r := ReplaceBackslashPairs(s);
      var rt := ReplaceBackslashPairs(t);
      assert r == [s[0]] + rt;
      if s[0] == '\\' && |rt| > 0 {
        assert t[0] != '\\';
        assert rt[0] != '\\';
      }
      forall i | 0 <= i < |r| - 1
        ensures !(r[i] == '\\' && r[i + 1] == '\\')
      {
        if i > 0 {
          assert r[i] == rt[i - 1] && r[i + 1] == rt[i];
        }
      }
    }
  }

  /** Reading back the colon escaping gives the path it was applied to. */
  lemma {:induction false} UnescapeEscapeColons(t: string)
    requires NoBackslashPair(t)
    ensures UnescapeColons(EscapeColons(t)) == t
    decreases |t|
  {
    if t != [] {
      var rest := t[1..];
      assert NoBackslashPair(rest) by {
        forall i | 0 <= i < |rest| - 1
          ensures !(rest[i] == '\\' && rest[i + 1] == '\\')
        {
          assert rest[i] == t[i + 1] && rest[i + 1] == t[i + 2];
        }
      }
      UnescapeEscapeColons(rest);
      var er := EscapeColons(rest);
      if t[0] == ':' {
        assert EscapeColons(t) == "\\\\:" + er;
        assert ("\\\\:" + er)[3..] == er;
      } else {
        var e := EscapeColons(t);
        assert e == [t[0]] + er;
        if |e| >= 3 && e[0] == '\\' && e[1] == '\\' {
          // e[1] is the first character of the escaped rest, so rest starts with
          // a backslash (a pair with t[0]) or with a colon (then e[2] is a backslash)
          assert rest != [];
          if rest[0] == ':' {
            assert er == "\\\\:" + EscapeColons(rest[1..]);
            assert e[2] == '\\';
          } else {
            assert false;
          }
        }
        assert e[1..] == er;
      }
    }
  }

  /**
   * Escaping loses nothing but the backslash-pair normalisation: reading the
   * escaped path back yields the path with pairs replaced, never truncated.
   */
  lemma EscapeFilterPathRoundTrip(path: string)
    ensures UnescapeColons(EscapeFilterPath(path)) == ReplaceBackslashPairs(path)
  {
    ReplaceLeavesNoPair(path);
    UnescapeEscapeColons(ReplaceBackslashPairs(path));
  }

  /** Every colon of the escaped text is preceded by two backslashes. */
  lemma {:induction false} ColonsAreEscaped(t: string)
    ensures forall i :: 0 <= i < |EscapeColons(t)| && EscapeColons(t)[i] == ':' ==>
      i >= 2 && EscapeColons(t)[i - 1] == '\\' && EscapeColons(t)[i - 2] == '\\'
    decreases |t|
  {
    if t != [] {
      ColonsAreEscaped(t[1..]);
      var er := EscapeColons(t[1..]);
      var head := if t[0] == ':' then "\\\\:" else [t[0]];
      assert EscapeColons(t) == head + er;
      forall i | 0 <= i < |head + er| && (head + er)[i] == ':'
        ensures i >= 2 && (head + er)[i - 1] == '\\' && (head + er)[i - 2] == '\\'
      {
        if i >= |head| {
          var j := i - |head|;
          assert er[j] == ':';
          if j < 2 {
            assert false;
          }
          assert (head + er)[i - 1] == er[j - 1] && (head + er)[i - 2] == er[j - 2];
        }
      }
    }
  }

  /** A path with no backslash and no colon is embedded unchanged. */
  lemma {:induction false} PlainPathUnchanged(path: string)
    requires forall i :: 0 <= i < |path| ==> path[i] != '\\' && path[i] != ':'
    ensures EscapeFilterPath(path) == path
    decreases |path|
  {
    if path != [] {
      PlainPathUnchanged(path[1..]);
      assert ReplaceBackslashPairs(path) == [path[0]] + ReplaceBackslashPairs(path[1..]);
      assert EscapeColons([path[0]] + ReplaceBackslashPairs(path[1..]))
          == [path[0]] + EscapeColons(ReplaceBackslashPairs(path[1..])) by {
        var x := [path[0]] + ReplaceBackslashPairs(path[1..]);
        assert x[1..] == ReplaceBackslashPairs(path[1..]);
      }
    }
  }
}
