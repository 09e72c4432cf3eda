/** Python's `sep.join(parts)` and `s.split(sep)` for a one-character separator. */
module Text {

  function Join(parts: seq<string>, sep: char): string {
    if |parts| == 0 then ""
    else if |parts| == 1 then parts[0]
    else parts[0] + [sep] + Join(parts[1..], sep)
  }

  function Split(s: string, sep: char): (parts: seq<string>)
    ensures parts != []
  {
    if s == "" then [""]
    else
      var rest := Split(s[1..], sep);
      if s[0] == sep then [""] + rest else [[s[0]] + rest[0]] + rest[1..]
  }

  ghost predicate Free(sep: char, parts: seq<string>) {
    forall p | p in parts :: sep !in p
  }

  /** The parts of a split never contain the separator. */
  lemma {:induction false} SplitFree(s: string, sep: char)
    ensures Free(sep, Split(s, sep))
  {
    if s != "" {
      var rest := Split(s[1..], sep);
      SplitFree(s[1..], sep);
      assert rest[0] in rest;
      assert forall p | p in rest[1..] :: p in rest;
    }
  }

  /** A character that is not in a text is not in its parts. */
  lemma {:induction false} SplitKeepsFree(s: string, sep: char, other: char)
    requires other !in s
    ensures Free(other, Split(s, sep))
  {
    if s != "" {
      var rest := Split(s[1..], sep);
      SplitKeepsFree(s[1..], sep, other);
      assert rest[0] in rest;
      assert forall p | p in rest[1..] :: p in rest;
    }
  }

  /** Joining what was split restores the text, whatever the text. */
  lemma {:induction false} JoinSplit(s: string, sep: char)
    ensures Join(Split(s, sep), sep) == s
  {
    if s != "" {
      var rest := Split(s[1..], sep);
      JoinSplit(s[1..], sep);
      if s[0] == sep {
        assert ([""] + rest)[1..] == rest;
      } else if |rest| > 1 {
        var parts := [[s[0]] + rest[0]] + rest[1..];
        assert parts[1..] == rest[1..];
      }
    }
  }

  lemma {:induction false} SplitWord(p: string, sep: char)
    requires sep !in p
    ensures Split(p, sep) == [p]
  {
    if p != "" {
      SplitWord(p[1..], sep);
      assert p == [p[0]] + p[1..];
    }
  }

  lemma {:induction false} SplitFirst(p: string, sep: char, rest: string)
    requires sep !in p
    ensures Split(p + [sep] + rest, sep) == [p] + Split(rest, sep)
  {
    var s := p + [sep] + rest;
    if p == "" {
      assert s[1..] == rest;
    } else {
      SplitFirst(p[1..], sep, rest);
      assert s[1..] == p[1..] + [sep] + rest;
      assert p == [p[0]] + p[1..];
    }
  }

  /** Splitting what was joined restores the parts, when there are some and none holds the separator. */
  lemma {:induction false} SplitJoin(parts: seq<string>, sep: char)
    requires parts != [] && Free(sep, parts)
    ensures Split(Join(parts, sep), sep) == parts
  {
    if |parts| == 1 {
      SplitWord(parts[0], sep);
    } else {
      SplitFirst(parts[0], sep, Join(parts[1..], sep));
      SplitJoin(parts[1..], sep);
    }
  }

  lemma {:induction false} JoinFree(parts: seq<string>, sep: char, other: char)
    requires Free(other, parts) && sep != other
    ensures other !in Join(parts, sep)
  {
    if |parts| > 1 {
      JoinFree(parts[1..], sep, other);
    }
  }
}
