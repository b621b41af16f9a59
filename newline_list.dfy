/**
 * The text codec the admin forms use for list-valued fields (a team
 * member's skills, a service's features): the list is edited as a textarea
 * with one entry per line. Reading the textarea splits it on line feeds and
 * drops the entries that are blank once trimmed; filling the textarea joins
 * the list with line feeds.
 */
module NewlineList {
  import opened Wrappers
  import opened Collections

  /** The characters JavaScript's `String.prototype.trim` removes: white space and line terminators. */
  predicate IsJsWhitespace(c: char)
  {
    || c == '\t' || c == '\n' || c == '\U{000B}' || c == '\U{000C}' || c == '\r' || c == ' '
    || c == '\U{00A0}' || c == '\U{1680}' || ('\U{2000}' <= c <= '\U{200A}')
    || c == '\U{2028}' || c == '\U{2029}' || c == '\U{202F}' || c == '\U{205F}'
    || c == '\U{3000}' || c == '\U{FEFF}'
  }

  /** Every character is white space: what survives no trim. */
  predicate IsBlank(s: string)
  {
    forall i :: 0 <= i < |s| ==> IsJsWhitespace(s[i])
  }

  /** Leading white space removed: a suffix of `s` that does not start with white space. */
  function TrimStart(s: string): (t: string)
    ensures |t| <= |s| && t == s[|s| - |t|..]
    ensures forall i :: 0 <= i < |s| - |t| ==> IsJsWhitespace(s[i])
    ensures t != [] ==> !IsJsWhitespace(t[0])
  {
    if s != [] && IsJsWhitespace(s[0]) then TrimStart(s[1..]) else s
  }

  /** Trailing white space removed: a prefix of `s` that does not end with white space. */
  function TrimEnd(s: string): (t: string)
    ensures |t| <= |s| && t == s[..|t|]
    ensures forall i :: |t| <= i < |s| ==> IsJsWhitespace(s[i])
    ensures t != [] ==> !IsJsWhitespace(t[|t| - 1])
  {
    if s != [] && IsJsWhitespace(s[|s| - 1]) then TrimEnd(s[..|s| - 1]) else s
  }

  /** `s.trim()`. */
  function Trim(s: string): (t: string)
    ensures |t| <= |s|
    ensures t != [] ==> !IsJsWhitespace(t[0]) && !IsJsWhitespace(t[|t| - 1])
  {
    var u := TrimStart(s);
    var t := TrimEnd(u);
    assert t != [] ==> t[0] == u[0];
    t
  }

  /** The filter test `s => s.trim() !== ''`. */
  function NonBlank(s: string): (b: bool)
    ensures b <==> exists i :: 0 <= i < |s| && !IsJsWhitespace(s[i])
  {
    TrimEmptyIffBlank(s);
    Trim(s) != []
  }

  /** A string trims to nothing exactly when all of it is white space. */
  lemma TrimEmptyIffBlank(s: string)
    ensures Trim(s) == [] <==> IsBlank(s)
  {
  }

  /** `s.split('\n')`: the pieces between line feeds, at least one, none holding a line feed. */
  function Split(s: string): (pieces: seq<string>)
    ensures |pieces| >= 1
    ensures forall p :: p in pieces ==> '\n' !in p
  {
    if s == [] then [[]]
    else
      var rest := Split(s[1..]);
      if s[0] == '\n' then [[]] + rest
      else
        assert rest[0] in rest;
        assert forall p :: p in rest[1..] ==> p in rest;
        [[s[0]] + rest[0]] + rest[1..]
  }

  /** `xs.join('\n')`. */
  function Join(xs: seq<string>): (s: string)
    ensures xs == [] ==> s == []
    ensures xs != [] ==> xs[0] <= s
    ensures |s| + 1 >= |xs|
  {
    if |xs| == 0 then []
    else if |xs| == 1 then xs[0]
    else xs[0] + "\n" + Join(xs[1..])
  }

  /** The textarea read back as a list: the non-blank pieces, in order and untrimmed. */
  function Parse(text: string): (items: seq<string>)
    ensures forall x :: x in items ==> NonBlank(x) && '\n' !in x
    ensures IsSubsequence(items, Split(text))
    ensures forall p :: p in Split(text) && NonBlank(p) ==> p in items
    ensures |items| == CountWhere(Split(text), NonBlank)
  {
    FilterIsSubsequence(Split(text), NonBlank);
    Filter(Split(text), NonBlank)
  }

  /**
   * `data.field ? data.field.split('\n').filter(s => s.trim() !== '') : []`:
   * an absent field and an empty one are both falsy and give the empty list.
   */
  function ParseField(text: Option<string>): (items: seq<string>)
    ensures text.None? || text == Some("") ==> items == []
    ensures forall x :: x in items ==> NonBlank(x) && '\n' !in x
    ensures text.Some? ==> items == Parse(text.value)
  {
    if text.Some? && text.value != "" then Parse(text.value)
    else
      assert text.Some? ==> Split(text.value) == [[]] && !NonBlank([]);
      []
  }

  /** Splitting a text that starts with a line-free `a`: `a` is glued to the first piece of the rest. */
  lemma {:induction false} SplitPrefix(a: string, b: string)
    requires '\n' !in a
    ensures Split(a + b) == [a + Split(b)[0]] + Split(b)[1..]
  {
    if a == [] {
      assert a + b == b;
      assert a + Split(b)[0] == Split(b)[0];
      assert [Split(b)[0]] + Split(b)[1..] == Split(b);
    } else {
      assert (a + b)[0] == a[0];
      assert (a + b)[1..] == a[1..] + b;
      SplitPrefix(a[1..], b);
      assert [a[0]] + (a[1..] + Split(b)[0]) == a + Split(b)[0];
    }
  }

  /** Joining the pieces of a split gives the text back. */
  lemma {:induction false} JoinSplit(s: string)
    ensures Join(Split(s)) == s
  {
    if s != [] {
      JoinSplit(s[1..]);
      var rest := Split(s[1..]);
      if s[0] == '\n' {
        assert ([[]] + rest)[1..] == rest;
        assert s == [] + "\n" + s[1..];
      } else {
        var pieces := [[s[0]] + rest[0]] + rest[1..];
        if |rest| == 1 {
          assert s == [s[0]] + rest[0];
        } else {
          assert Join(rest) == rest[0] + "\n" + Join(rest[1..]);
          assert pieces[1..] == rest[1..];
          assert s == ([s[0]] + rest[0]) + "\n" + Join(rest[1..]);
        }
      }
    }
  }

  /** Splitting the join of a non-empty list of line-free entries gives the list back. */
  lemma {:induction false} SplitJoin(xs: seq<string>)
    requires |xs| >= 1
    requires forall x :: x in xs ==> '\n' !in x
    ensures Split(Join(xs)) == xs
  {
    if |xs| == 1 {
      SplitPrefix(xs[0], []);
      assert xs[0] + [] == xs[0];
    } else {
      assert forall x :: x in xs[1..] ==> x in xs;
      SplitJoin(xs[1..]);
      assert xs[0] in xs;
      var b := "\n" + Join(xs[1..]);
      assert Join(xs) == xs[0] + b;
      SplitPrefix(xs[0], b);
      assert b[0] == '\n' && b[1..] == Join(xs[1..]);
      assert Split(b) == [[]] + xs[1..];
      assert Split(b)[0] == [] && Split(b)[1..] == xs[1..];
      assert xs[0] + [] == xs[0];
      assert [xs[0]] + xs[1..] == xs;
    }
  }

  /**
   * Filling the textarea from a list and reading it back gives the list, and
   * exactly when every entry is non-blank and free of line feeds.
   */
  lemma RoundTrip(xs: seq<string>)
    ensures ParseField(Some(Join(xs))) == xs <==> forall x :: x in xs ==> NonBlank(x) && '\n' !in x
  {
    if forall x :: x in xs ==> NonBlank(x) && '\n' !in x {
      if xs != [] {
        assert xs[0] in xs;
        assert Join(xs) != "" by {
          if |xs| > 1 { assert Join(xs) == xs[0] + "\n" + Join(xs[1..]); }
        }
        SplitJoin(xs);
        FilterAllKept(xs, NonBlank);
      }
    }
  }

  /**
   * Entries are kept as typed, surrounding spaces included: when no line is
   * blank, reading the textarea gives exactly its lines, and joining them
   * reproduces the text character for character.
   */
  lemma ParseKeepsLinesVerbatim(text: string)
    requires forall p :: p in Split(text) ==> NonBlank(p)
    ensures Parse(text) == Split(text)
    ensures Join(Parse(text)) == text
  {
    FilterAllKept(Split(text), NonBlank);
    JoinSplit(text);
  }
}
