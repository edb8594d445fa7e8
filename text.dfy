/** Splitting and joining of strings, used to give the database connection
    descriptor a meaning as a list of `key=value` words. */
module Text {

  /** Joins `words` with `sep` between each pair. */
  function Join(words: seq<string>, sep: char): string
  {
    if |words| == 0 then ""
    else if |words| == 1 then words[0]
    else words[0] + [sep] + Join(words[1..], sep)
  }

  /** Joining one more word at the end adds a separator and it. */
  lemma {:induction false} JoinSnoc(words: seq<string>, w: string, sep: char)
    requires |words| > 0
    ensures Join(words + [w], sep) == Join(words, sep) + [sep] + w
  {
    if |words| == 1 {
      assert words + [w] == [words[0], w];
    } else {
      assert (words + [w])[1..] == words[1..] + [w];
      JoinSnoc(words[1..], w, sep);
    }
  }

  /** Splits `s` at every `sep`; like Go's strings.Split it always yields at
      least one (possibly empty) piece. */
  function Split(s: string, sep: char): (r: seq<string>)
    ensures |r| > 0
  {
    if |s| == 0 then [""]
    else
      var rest := Split(s[1..], sep);
      if s[0] == sep then [""] + rest
      else [[s[0]] + rest[0]] + rest[1..]
  }

  /** Splits a word that contains `sep` at its first occurrence. */
  function SplitFirst(s: string, sep: char): (r: (string, string))
    requires sep in s
    ensures r.0 + [sep] + r.1 == s && sep !in r.0
  {
    if s[0] == sep then ("", s[1..])
    else
      var (k, v) := SplitFirst(s[1..], sep);
      ([s[0]] + k, v)
  }

  /** Splitting a piece free of the separator, followed by the separator and
      more text, yields that piece first. */
  lemma {:induction false} SplitPrefix(a: string, b: string, sep: char)
    requires sep !in a
    ensures Split(a + [sep] + b, sep) == [a] + Split(b, sep)
  {
    if |a| == 0 {
      assert a + [sep] + b == [sep] + b;
      assert ([sep] + b)[1..] == b;
    } else {
      assert (a + [sep] + b)[1..] == a[1..] + [sep] + b;
      SplitPrefix(a[1..], b, sep);
      assert [a[0]] + a[1..] == a;
    }
  }

  /** A piece free of the separator splits into itself. */
  lemma {:induction false} SplitWhole(a: string, sep: char)
    requires sep !in a
    ensures Split(a, sep) == [a]
  {
    if |a| > 0 {
      SplitWhole(a[1..], sep);
      assert [a[0]] + a[1..] == a;
    }
  }

  /** Split undoes Join when no word contains the separator. */
  lemma {:induction false} SplitJoin(words: seq<string>, sep: char)
    requires |words| > 0
    requires forall i :: 0 <= i < |words| ==> sep !in words[i]
    ensures Split(Join(words, sep), sep) == words
  {
    if |words| == 1 {
      SplitWhole(words[0], sep);
    } else {
      SplitJoin(words[1..], sep);
      SplitPrefix(words[0], Join(words[1..], sep), sep);
      assert [words[0]] + words[1..] == words;
    }
  }

  /** SplitFirst undoes gluing a separator-free key to any value. */
  lemma {:induction false} SplitFirstGlue(k: string, v: string, sep: char)
    requires sep !in k
    ensures sep in k + [sep] + v
    ensures SplitFirst(k + [sep] + v, sep) == (k, v)
  {
    assert (k + [sep] + v)[|k|] == sep;
    if |k| > 0 {
      assert (k + [sep] + v)[1..] == k[1..] + [sep] + v;
      SplitFirstGlue(k[1..], v, sep);
      assert [k[0]] + k[1..] == k;
    }
  }
}
