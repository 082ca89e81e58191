/** The answer map the wizard accumulates, and the few JavaScript value
    semantics the decision logic relies on when it reads it. */
module Answers {

  datatype Option<+T> = None | Some(value: T)

  /** Question identifier to selected option value. A key that is absent
      stands for a JavaScript `undefined` property. */
  type Answer = map<string, string>

  /** `answers[key] === v`: an absent key is `undefined`, which is never
      strictly equal to a string. */
  predicate Is(a: Answer, key: string, v: string) {
    key in a && a[key] == v
  }

  /** JavaScript truthiness of `answers[key]`: present and not the empty string. */
  predicate Truthy(a: Answer, key: string) {
    key in a && a[key] != ""
  }

  /** `[...].includes(answers[key])` over a literal list of tokens. */
  predicate IsOneOf(a: Answer, key: string, tokens: set<string>) {
    key in a && a[key] in tokens
  }

  /** `answers[key] || ""`: the stored value, or the empty string when the
      key is absent (an empty stored value is falsy and gives "" as well). */
  function ValueOrEmpty(a: Answer, key: string): (v: string)
    ensures key in a ==> v == a[key]
    ensures key !in a ==> v == ""
  {
    if Truthy(a, key) then a[key] else ""
  }

  /** `s.split(sep)` for a one-character separator: the maximal runs between
      separators, empty runs included, so "" gives [""] and "a," gives ["a", ""]. */
  function Split(s: string, sep: char): (parts: seq<string>)
    ensures |parts| >= 1
    decreases |s|
  {
    if |s| == 0 then [""]
    else
      var rest := Split(s[1..], sep);
      if s[0] == sep then [""] + rest
      else [[s[0]] + rest[0]] + rest[1..]
  }

  /** No piece of a split contains the separator. */
  lemma {:induction false} SplitPiecesHaveNoSeparator(s: string, sep: char)
    ensures forall i :: 0 <= i < |Split(s, sep)| ==> sep !in Split(s, sep)[i]
    decreases |s|
  {
    if |s| > 0 {
      SplitPiecesHaveNoSeparator(s[1..], sep);
      var rest := Split(s[1..], sep);
      if s[0] != sep {
        assert sep !in [s[0]] + rest[0];
      }
    }
  }

  /** `parts.join(sep)`: the reference that Split inverts. */
  function Join(parts: seq<string>, sep: char): string
  {
    if |parts| == 0 then ""
    else if |parts| == 1 then parts[0]
    else parts[0] + [sep] + Join(parts[1..], sep)
  }

  /** Joining the pieces of a split gives back the original string. */
  lemma {:induction false} JoinSplit(s: string, sep: char)
    ensures Join(Split(s, sep), sep) == s
    decreases |s|
  {
    if |s| > 0 {
      var rest := Split(s[1..], sep);
      JoinSplit(s[1..], sep);
      if s[0] == sep {
        assert Split(s, sep) == [""] + rest;
        assert Join([""] + rest, sep) == "" + [sep] + Join(rest, sep);
        assert [s[0]] + s[1..] == s;
      } else if |rest| == 1 {
        assert Split(s, sep) == [[s[0]] + rest[0]];
        assert [s[0]] + s[1..] == s;
      } else {
        var parts := [[s[0]] + rest[0]] + rest[1..];
        assert Split(s, sep) == parts;
        assert parts[1..] == rest[1..];
        assert Join(rest, sep) == rest[0] + [sep] + Join(rest[1..], sep);
        assert Join(parts, sep) == [s[0]] + Join(rest, sep);
        assert [s[0]] + s[1..] == s;
      }
    }
  }

  /** A string without the separator splits into itself alone. */
  lemma {:induction false} SplitWithoutSeparator(s: string, sep: char)
    requires sep !in s
    ensures Split(s, sep) == [s]
    decreases |s|
  {
    if |s| > 0 {
      assert sep !in s[1..];
      SplitWithoutSeparator(s[1..], sep);
      assert [s[0]] + s[1..] == s;
    }
  }

  /** One unfolding of Split on a string with a known first character. */
  lemma SplitCons(c: char, t: string, sep: char)
    ensures Split([c] + t, sep) ==
      if c == sep then [""] + Split(t, sep)
      else [[c] + Split(t, sep)[0]] + Split(t, sep)[1..]
  {
    assert ([c] + t)[1..] == t;
  }

  /** A separator splits the string into the pieces of its two sides. */
  lemma {:induction false} SplitAtSeparator(x: string, sep: char, y: string)
    ensures Split(x + [sep] + y, sep) == Split(x, sep) + Split(y, sep)
    decreases |x|
  {
    if |x| == 0 {
      assert x + [sep] + y == [sep] + y;
      SplitCons(sep, y, sep);
    } else {
      var t := x[1..] + [sep] + y;
      SplitAtSeparator(x[1..], sep, y);
      if x[0] == sep {
        LeadingSeparatorKeepsSplit(x[1..], sep, y, t);
      } else {
        LeadingCharKeepsSplit(x[0], x[1..], sep, y, t);
      }
      assert x + [sep] + y == [x[0]] + t;
      assert x == [x[0]] + x[1..];
    }
  }

  /** Prefixing both sides with a separator preserves a split decomposition. */
  lemma LeadingSeparatorKeepsSplit(x: string, sep: char, y: string, t: string)
    requires Split(t, sep) == Split(x, sep) + Split(y, sep)
    ensures Split([sep] + t, sep) == Split([sep] + x, sep) + Split(y, sep)
  {
    SplitCons(sep, t, sep);
    SplitCons(sep, x, sep);
  }

  /** Prefixing both sides with another character preserves a split decomposition. */
  lemma LeadingCharKeepsSplit(c: char, x: string, sep: char, y: string, t: string)
    requires c != sep
    requires Split(t, sep) == Split(x, sep) + Split(y, sep)
    ensures Split([c] + t, sep) == Split([c] + x, sep) + Split(y, sep)
  {
    var xs, ys := Split(x, sep), Split(y, sep);
    SplitCons(c, t, sep);
    SplitCons(c, x, sep);
    ExtendFirstPiece([c] + xs[0], xs, ys);
  }

  /** Replacing the first piece and appending more pieces commute. */
  lemma ExtendFirstPiece(head: string, xs: seq<string>, ys: seq<string>)
    requires |xs| >= 1
    ensures (xs + ys)[0] == xs[0]
    ensures [head] + (xs + ys)[1..] == [head] + xs[1..] + ys
  {
    assert (xs + ys)[1..] == xs[1..] + ys;
  }

  /** Splitting a join of separator-free pieces gives the pieces back, so a
      token is found by `split(...).includes(...)` only by exact match. */
  lemma {:induction false} SplitJoin(parts: seq<string>, sep: char)
    requires |parts| >= 1
    requires forall i :: 0 <= i < |parts| ==> sep !in parts[i]
    ensures Split(Join(parts, sep), sep) == parts
    decreases |parts|
  {
    SplitWithoutSeparator(parts[0], sep);
    if |parts| > 1 {
      SplitJoin(parts[1..], sep);
      SplitAtSeparator(parts[0], sep, Join(parts[1..], sep));
      assert [parts[0]] + parts[1..] == parts;
    }
  }
}
