/**
 * The string operations of Python that the bot relies on:
 * `str.split(sep)`, `str.strip()`, `str.startswith(prefix)`, and the first
 * word of a message, which aiogram's command filters look at.
 */
module Text {
  import opened Wrappers

  /** Python's `str.startswith`. */
  predicate StartsWith(s: string, prefix: string) {
    |prefix| <= |s| && s[..|prefix|] == prefix
  }

  /** Python's `part in s` for strings. */
  predicate Contains(s: string, part: string) {
    exists i :: 0 <= i <= |s| - |part| && OccursAt(s, part, i)
  }

  predicate OccursAt(s: string, part: string, i: int) {
    0 <= i <= |s| - |part| && s[i..i + |part|] == part
  }

  /** A string starts with what was concatenated in front of it. */
  lemma StartsWithConcat(a: string, b: string)
    ensures StartsWith(a + b, a)
  {
    assert (a + b)[..|a|] == a;
  }

  /** A string contains what was concatenated into it. */
  lemma ContainsMiddle(a: string, part: string, b: string)
    ensures Contains(a + part + b, part)
  {
    var s := a + part + b;
    assert s[|a|..|a| + |part|] == part;
    assert OccursAt(s, part, |a|);
  }

  /** The pieces of a formatted string, one after the other. */
  function Concat(parts: seq<string>): string {
    if parts == [] then [] else Concat(parts[..|parts| - 1]) + parts[|parts| - 1]
  }

  lemma {:induction false} ConcatSplit(parts: seq<string>, i: int)
    requires 0 <= i <= |parts|
    ensures Concat(parts) == Concat(parts[..i]) + Concat(parts[i..])
  {
    if i < |parts| {
      var n := |parts| - 1;
      ConcatSplit(parts[..n], i);
      assert parts[..n][..i] == parts[..i];
      assert parts[..n][i..] == parts[i..][..|parts[i..]| - 1];
    } else {
      assert parts[..i] == parts;
    }
  }

  /** Three pieces in a row make their concatenation. */
  lemma ConcatThree(a: string, b: string, c: string)
    ensures Concat([a, b, c]) == a + b + c
  {
    assert [a][..0] == [] && [] + a == a;
    assert Concat([a]) == a;
    assert [a, b][..1] == [a];
    assert Concat([a, b]) == a + b;
    assert [a, b, c][..2] == [a, b];
  }

  /** A formatted string starts with its first pieces and contains every run of consecutive pieces. */
  lemma ConcatRuns(parts: seq<string>, i: int, j: int)
    requires 0 <= i <= j <= |parts|
    ensures StartsWith(Concat(parts), Concat(parts[..j]))
    ensures Contains(Concat(parts), Concat(parts[i..j]))
  {
    ConcatSplit(parts, j);
    StartsWithConcat(Concat(parts[..j]), Concat(parts[j..]));
    ConcatSplit(parts[..j], i);
    assert parts[..j][..i] == parts[..i] && parts[..j][i..] == parts[i..j];
    ContainsMiddle(Concat(parts[..i]), Concat(parts[i..j]), Concat(parts[j..]));
  }

  /** What is left of `s` once `prefix` is cut off its front; `None` when `s` does not start with it. */
  function StripPrefix(s: string, prefix: string): (r: Option<string>)
    ensures r.Some? <==> StartsWith(s, prefix)
    ensures r.Some? ==> prefix + r.value == s
  {
    if StartsWith(s, prefix) then Some(s[|prefix|..]) else None
  }

  // ---------------------------------------------------------------------
  // str.split(sep) with a one-character separator
  // ---------------------------------------------------------------------

  /** Glues fields back together with the separator between them (Python's `sep.join`). */
  function Join(fields: seq<string>, sep: char): string
    requires |fields| >= 1
  {
    if |fields| == 1 then fields[0] else fields[0] + [sep] + Join(fields[1..], sep)
  }

  /** A joined string starts with its first field. */
  lemma JoinStartsWithFirst(fields: seq<string>, sep: char)
    requires |fields| >= 1
    ensures StartsWith(Join(fields, sep), fields[0])
  {
    if |fields| > 1 {
      assert (fields[0] + [sep] + Join(fields[1..], sep))[..|fields[0]|] == fields[0];
    }
  }

  /**
   * Python's `s.split(sep)`: the fields between occurrences of `sep`, never an
   * empty list (`"".split("_") == [""]`), and empty fields kept.
   */
  function Split(s: string, sep: char): (r: seq<string>)
    ensures |r| >= 1
    ensures forall i :: 0 <= i < |r| ==> sep !in r[i]
    ensures Join(r, sep) == s
    decreases |s|
  {
    if |s| == 0 then [""]
    else if s[0] == sep then [""] + Split(s[1..], sep)
    else
      var rest := Split(s[1..], sep);
      assert s == [s[0]] + s[1..];
      [[s[0]] + rest[0]] + rest[1..]
  }

  /** Python's `s.split(sep)[k]`; `None` where Python raises IndexError. */
  function Field(s: string, sep: char, k: nat): (r: Option<string>)
    ensures r.Some? <==> k < |Split(s, sep)|
    ensures r.Some? ==> sep !in r.value
  {
    var fields := Split(s, sep);
    if k < |fields| then Some(fields[k]) else None
  }

  /** A field free of the separator is split off intact in front of the rest. */
  lemma {:induction false} SplitAfterField(a: string, sep: char, b: string)
    requires sep !in a
    ensures Split(a + [sep] + b, sep) == [a] + Split(b, sep)
    decreases |a|
  {
    if |a| == 0 {
      assert a + [sep] + b == [sep] + b;
      assert ([sep] + b)[1..] == b;
    } else {
      var s := a + [sep] + b;
      assert s[0] == a[0] && s[1..] == a[1..] + [sep] + b;
      SplitAfterField(a[1..], sep, b);
      assert [a[0]] + a[1..] == a;
    }
  }

  /** A string free of the separator splits into itself alone. */
  lemma {:induction false} SplitWithoutSeparator(s: string, sep: char)
    requires sep !in s
    ensures Split(s, sep) == [s]
    decreases |s|
  {
    if |s| > 0 {
      SplitWithoutSeparator(s[1..], sep);
      assert [s[0]] + s[1..] == s;
    }
  }

  /**
   * Round trip: splitting what `Join` built from separator-free fields gives
   * the fields back, so `Split` is the inverse of `Join`.
   */
  lemma {:induction false} SplitJoin(fields: seq<string>, sep: char)
    requires |fields| >= 1
    requires forall i :: 0 <= i < |fields| ==> sep !in fields[i]
    ensures Split(Join(fields, sep), sep) == fields
    decreases |fields|
  {
    if |fields| == 1 {
      SplitWithoutSeparator(fields[0], sep);
    } else {
      SplitJoin(fields[1..], sep);
      SplitAfterField(fields[0], sep, Join(fields[1..], sep));
      assert [fields[0]] + fields[1..] == fields;
    }
  }

  // ---------------------------------------------------------------------
  // str.strip()
  // ---------------------------------------------------------------------

  /** The characters Python's `str.isspace` accepts, which `str.strip()` removes. */
  const SpaceChars: set<char> := {
    '\t', '\n', '\U{0B}', '\U{0C}', '\r', '\U{1C}', '\U{1D}', '\U{1E}', '\U{1F}', ' ',
    '\U{85}', '\U{A0}', '\U{1680}',
    '\U{2000}', '\U{2001}', '\U{2002}', '\U{2003}', '\U{2004}', '\U{2005}',
    '\U{2006}', '\U{2007}', '\U{2008}', '\U{2009}', '\U{200A}',
    '\U{2028}', '\U{2029}', '\U{202F}', '\U{205F}', '\U{3000}'}

  predicate IsSpace(c: char) {
    c in SpaceChars
  }

  /** The first index from `i` on that holds no whitespace, or `|s|`. */
  function SkipSpaces(s: string, i: nat): (j: nat)
    requires i <= |s|
    ensures i <= j <= |s|
    ensures j < |s| ==> !IsSpace(s[j])
    decreases |s| - i
  {
    if i < |s| && IsSpace(s[i]) then SkipSpaces(s, i + 1) else i
  }

  /** Everything `SkipSpaces` skips is whitespace. */
  lemma {:induction false} SkipSpacesSkipsSpace(s: string, i: nat)
    requires i <= |s|
    ensures forall k :: i <= k < SkipSpaces(s, i) ==> IsSpace(s[k])
    decreases |s| - i
  {
    if i < |s| && IsSpace(s[i]) {
      SkipSpacesSkipsSpace(s, i + 1);
    }
  }

  /** Going back from `j`, no further than `lo`: the first index whose predecessor holds no whitespace. */
  function SkipSpacesBack(s: string, lo: nat, j: nat): (r: nat)
    requires lo <= j <= |s|
    ensures lo <= r <= j
    ensures r > lo ==> !IsSpace(s[r - 1])
    decreases j - lo
  {
    if j > lo && IsSpace(s[j - 1]) then SkipSpacesBack(s, lo, j - 1) else j
  }

  /** Everything `SkipSpacesBack` skips is whitespace. */
  lemma {:induction false} SkipSpacesBackSkipsSpace(s: string, lo: nat, j: nat)
    requires lo <= j <= |s|
    ensures forall k :: SkipSpacesBack(s, lo, j) <= k < j ==> IsSpace(s[k])
    decreases j - lo
  {
    if j > lo && IsSpace(s[j - 1]) {
      SkipSpacesBackSkipsSpace(s, lo, j - 1);
    }
  }

  /**
   * Python's `s.strip()`: the part of `s` between its leading and trailing
   * whitespace, itself neither starting nor ending with whitespace.
   */
  function Trim(s: string): (r: string)
    ensures |r| <= |s|
    ensures r == [] || (!IsSpace(r[0]) && !IsSpace(r[|r| - 1]))
  {
    var i := SkipSpaces(s, 0);
    s[i..SkipSpacesBack(s, i, |s|)]
  }

  /** `Trim` keeps a slice `s[i..j]` and drops only whitespace on either side of it. */
  lemma TrimDropsOnlySpace(s: string)
    ensures var i := SkipSpaces(s, 0); var j := SkipSpacesBack(s, i, |s|);
      Trim(s) == s[i..j] &&
      (forall k :: 0 <= k < i ==> IsSpace(s[k])) &&
      (forall k :: j <= k < |s| ==> IsSpace(s[k]))
  {
    var i := SkipSpaces(s, 0);
    SkipSpacesSkipsSpace(s, 0);
    SkipSpacesBackSkipsSpace(s, i, |s|);
  }

  /** Stripping twice is stripping once. */
  lemma TrimIdempotent(s: string)
    ensures Trim(Trim(s)) == Trim(s)
  {
    var r := Trim(s);
    assert SkipSpaces(r, 0) == 0;
    assert SkipSpacesBack(r, 0, |r|) == |r|;
    assert r[0..|r|] == r;
  }

  // ---------------------------------------------------------------------
  // The first word of a message and aiogram's command filter
  // ---------------------------------------------------------------------

  /** The first index from `i` on that holds whitespace, or `|s|`. */
  function SkipWord(s: string, i: nat): (j: nat)
    requires i <= |s|
    ensures i <= j <= |s|
    ensures j < |s| ==> IsSpace(s[j])
    decreases |s| - i
  {
    if i < |s| && !IsSpace(s[i]) then SkipWord(s, i + 1) else i
  }

  /** Nothing `SkipWord` skips is whitespace. */
  lemma {:induction false} SkipWordSkipsNoSpace(s: string, i: nat)
    requires i <= |s|
    ensures forall k :: i <= k < SkipWord(s, i) ==> !IsSpace(s[k])
    decreases |s| - i
  {
    if i < |s| && !IsSpace(s[i]) {
      SkipWordSkipsNoSpace(s, i + 1);
    }
  }

  /**
   * What `text.split(maxsplit=1)[0]` yields: the first whitespace-delimited
   * word (empty when there is none).
   */
  function FirstWord(text: string): (w: string)
    ensures forall k :: 0 <= k < |w| ==> !IsSpace(w[k])
  {
    var i := SkipSpaces(text, 0);
    SkipWordSkipsNoSpace(text, i);
    text[i..SkipWord(text, i)]
  }

  /**
   * aiogram's `Command(name)` filter: the first word, up to any `@mention`,
   * is `/` followed by the command's name.
   */
  predicate IsCommand(text: string, name: string)
    ensures IsCommand(text, name) ==> StartsWith(FirstWord(text), "/" + name) && '@' !in name
  {
    var fields := Split(FirstWord(text), '@');
    JoinStartsWithFirst(fields, '@');
    assert fields[0] == "/" + name ==> name == fields[0][1..];
    fields[0] == "/" + name
  }

  /**
   * `w` is the first whitespace-delimited word of `text`, starting at `i`:
   * only whitespace comes before it, it holds none, whitespace or the end
   * follows it, and it is empty only when the text is all whitespace.
   */
  ghost predicate FirstWordAt(text: string, w: string, i: int) {
    0 <= i && i + |w| <= |text| &&
    (forall k :: 0 <= k < i ==> IsSpace(text[k])) &&
    text[i..i + |w|] == w &&
    (forall k :: 0 <= k < |w| ==> !IsSpace(w[k])) &&
    (i + |w| == |text| || IsSpace(text[i + |w|])) &&
    (w == [] ==> i == |text|)
  }

  /** `FirstWord` is the text's first word: it sits after leading whitespace and runs up to whitespace or the end. */
  lemma FirstWordIsFirstWord(text: string)
    ensures exists i :: FirstWordAt(text, FirstWord(text), i)
  {
    var w := FirstWord(text);
    var i := SkipSpaces(text, 0);
    SkipSpacesSkipsSpace(text, 0);
    assert i + |w| == SkipWord(text, i);
    assert text[i..i + |w|] == w;
    assert FirstWordAt(text, w, i);
  }

  /** A text has only one first word, so `FirstWordAt` pins `FirstWord` down. */
  lemma FirstWordAtUnique(text: string, w1: string, i1: int, w2: string, i2: int)
    requires FirstWordAt(text, w1, i1) && FirstWordAt(text, w2, i2)
    ensures i1 == i2 && w1 == w2
  {
    // a non-empty word starts with a non-space, so neither start lies before the other
    assert w1 != [] ==> text[i1] == w1[0];
    assert w2 != [] ==> text[i2] == w2[0];
    if i1 < i2 || i2 < i1 { assert false; }
    // the shorter word would be followed by a character of the longer one, which is no space
    assert forall j :: i1 <= j < i1 + |w1| ==> text[j] == w1[j - i1];
    assert forall j :: i2 <= j < i2 + |w2| ==> text[j] == w2[j - i2];
    if |w1| != |w2| { assert false; }
  }

  /** A command followed by arguments, or with an `@mention`, still passes the filter. */
  lemma {:induction false} CommandWithArguments(name: string, rest: string)
    requires forall k :: 0 <= k < |name| ==> !IsSpace(name[k]) && name[k] != '@'
    ensures IsCommand("/" + name, name)
    ensures IsCommand("/" + name + " " + rest, name)
    ensures (forall k :: 0 <= k < |rest| ==> !IsSpace(rest[k])) ==> IsCommand("/" + name + "@" + rest, name)
  {
    var c := "/" + name;
    assert forall k :: 0 <= k < |c| ==> !IsSpace(c[k]) && c[k] != '@';
    SplitWithoutSeparator(c, '@');
    // the bare command
    assert c + "" == c;
    FirstWordOfWord(c, "");
    // the command with arguments
    assert c + " " + rest == c + (" " + rest);
    FirstWordOfWord(c, " " + rest);
    // the command with a mention
    if forall k :: 0 <= k < |rest| ==> !IsSpace(rest[k]) {
      var w := c + "@" + rest;
      assert forall k :: 0 <= k < |w| ==> !IsSpace(w[k]);
      assert w + "" == w;
      FirstWordOfWord(w, "");
      assert c + ['@'] + rest == w;
      SplitAfterField(c, '@', rest);
    }
  }

  /** A bare command word passes the filter of its own name and of no other name. */
  lemma BareCommand(name: string, other: string)
    requires forall k :: 0 <= k < |name| ==> !IsSpace(name[k]) && name[k] != '@'
    ensures IsCommand("/" + name, other) <==> name == other
  {
    CommandWithArguments(name, "");
    assert Split(FirstWord("/" + name), '@')[0] == "/" + name;
    if "/" + name == "/" + other {
      assert name == ("/" + name)[1..] == ("/" + other)[1..] == other;
    }
  }

  /** Inside a word followed by nothing or by whitespace, `SkipWord` stops at the word's end. */
  lemma {:induction false} SkipWordOfWord(w: string, rest: string, i: nat)
    requires i <= |w|
    requires forall k :: 0 <= k < |w| ==> !IsSpace(w[k])
    requires rest == [] || IsSpace(rest[0])
    ensures SkipWord(w + rest, i) == |w|
    decreases |w| - i
  {
    if i < |w| {
      assert (w + rest)[i] == w[i];
      SkipWordOfWord(w, rest, i + 1);
    } else if rest != [] {
      assert (w + rest)[i] == rest[0];
    }
  }

  /** A word that starts the text and is followed by nothing or by whitespace is its first word. */
  lemma FirstWordOfWord(w: string, rest: string)
    requires w != [] && forall k :: 0 <= k < |w| ==> !IsSpace(w[k])
    requires rest == [] || IsSpace(rest[0])
    ensures FirstWord(w + rest) == w
  {
    assert (w + rest)[0] == w[0];
    assert SkipSpaces(w + rest, 0) == 0;
    SkipWordOfWord(w, rest, 0);
    assert (w + rest)[0..|w|] == w;
  }
}
