/**
 * The .NET string operations the scanner relies on, stated over `string`
 * (a sequence of `char`): ordinal case-insensitive comparison restricted to
 * ASCII letters, `EndsWith`, `Contains`, `Trim`, `string.Join`,
 * `Path.GetExtension` and an append-only `StringBuilder`.
 */
module Strings {

  datatype Option<+T> = None | Some(value: T)

  // ---------------------------------------------------------------------
  // Case folding (StringComparison.OrdinalIgnoreCase, ASCII part)
  // ---------------------------------------------------------------------

  /** Upper-cases an ASCII letter; every other character folds to itself. */
  function ToUpper(c: char): char {
    if 'a' <= c <= 'z' then (c as int - 32) as char else c
  }

  function Fold(s: string): string {
    seq(|s|, i requires 0 <= i < |s| => ToUpper(s[i]))
  }

  /** `a.Equals(b, StringComparison.OrdinalIgnoreCase)` */
  predicate EqualsIgnoreCase(a: string, b: string) {
    Fold(a) == Fold(b)
  }

  /** `s.EndsWith(suffix)` with ordinal comparison. */
  predicate EndsWith(s: string, suffix: string) {
    |suffix| <= |s| && s[|s| - |suffix|..] == suffix
  }

  /** `s.EndsWith(suffix, StringComparison.OrdinalIgnoreCase)` */
  predicate EndsWithIgnoreCase(s: string, suffix: string) {
    EndsWith(Fold(s), Fold(suffix))
  }

  /** `needle` occurs in `hay` starting at index `i`. */
  predicate OccursAt(hay: string, needle: string, i: int) {
    0 <= i && i + |needle| <= |hay| && hay[i..i + |needle|] == needle
  }

  /** `s.Contains(needle, StringComparison.OrdinalIgnoreCase)`; the empty needle is contained in every string. */
  predicate ContainsIgnoreCase(s: string, needle: string) {
    exists i | 0 <= i <= |s| - |needle| :: OccursAt(Fold(s), Fold(needle), i)
  }

  /** `suffixes.Any(ext => s.EndsWith(ext, StringComparison.OrdinalIgnoreCase))` */
  function AnyEndsWithIgnoreCase(s: string, suffixes: seq<string>): (b: bool)
    ensures b <==> exists k :: 0 <= k < |suffixes| && EndsWithIgnoreCase(s, suffixes[k])
  {
    if suffixes == [] then false
    else if EndsWithIgnoreCase(s, suffixes[0]) then true
    else
      var b := AnyEndsWithIgnoreCase(s, suffixes[1..]);
      assert forall k :: 1 <= k < |suffixes| ==> suffixes[k] == suffixes[1..][k - 1];
      b
  }

  // ---------------------------------------------------------------------
  // Trim
  // ---------------------------------------------------------------------

  /** `char.IsWhiteSpace` on the Latin-1 range. */
  predicate IsWhiteSpace(c: char) {
    c == ' ' || '\t' <= c <= '\r' || c == 0x85 as char || c == 0xA0 as char
  }

  predicate AllWhiteSpace(s: string) {
    forall i :: 0 <= i < |s| ==> IsWhiteSpace(s[i])
  }

  /** `s.TrimEnd()`: the longest prefix of `s` that does not end in white space. */
  function TrimEnd(s: string): (r: string)
    ensures r <= s
    ensures r == [] || !IsWhiteSpace(r[|r| - 1])
  {
    if s == [] || !IsWhiteSpace(s[|s| - 1]) then s
    else TrimEnd(s[..|s| - 1])
  }

  /** `s.TrimStart()`: the longest suffix of `s` that does not start with white space. */
  function TrimStart(s: string): (r: string)
    ensures |r| <= |s| && r == s[|s| - |r|..]
    ensures r == [] || !IsWhiteSpace(r[0])
  {
    if s == [] || !IsWhiteSpace(s[0]) then s
    else TrimStart(s[1..])
  }

  /** `s.Trim()`: white space removed from both ends. */
  function Trim(s: string): (r: string)
    ensures r == [] || (!IsWhiteSpace(r[0]) && !IsWhiteSpace(r[|r| - 1]))
    ensures s != [] && !IsWhiteSpace(s[0]) ==> r == TrimEnd(s)
  {
    TrimEnd(TrimStart(s))
  }

  /** A trailing trim removes white space only. */
  lemma {:induction false} TrimEndRemovesWhiteSpace(s: string)
    ensures AllWhiteSpace(s[|TrimEnd(s)|..])
  {
    if s != [] && IsWhiteSpace(s[|s| - 1]) {
      var n := |s| - 1;
      TrimEndRemovesWhiteSpace(s[..n]);
      assert s[|TrimEnd(s)|..] == s[..n][|TrimEnd(s[..n])|..] + [s[n]];
    }
  }

  /** A leading trim removes white space only. */
  lemma {:induction false} TrimStartRemovesWhiteSpace(s: string)
    ensures AllWhiteSpace(s[..|s| - |TrimStart(s)|])
  {
    if s != [] && IsWhiteSpace(s[0]) {
      TrimStartRemovesWhiteSpace(s[1..]);
      assert s[..|s| - |TrimStart(s)|] == [s[0]] + s[1..][..|s[1..]| - |TrimStart(s[1..])|];
    }
  }

  /** `Trim` yields "" exactly for an all-white-space string. */
  lemma TrimEmptyIff(s: string)
    ensures Trim(s) == [] <==> AllWhiteSpace(s)
  {
    var t := TrimStart(s);
    TrimStartRemovesWhiteSpace(s);
    TrimEndRemovesWhiteSpace(t);
    assert s == s[..|s| - |t|] + t;
    if t != [] {
      assert !IsWhiteSpace(s[|s| - |t|]);
    }
  }

  /** Trimming twice is trimming once. */
  lemma TrimIdempotent(s: string)
    ensures Trim(Trim(s)) == Trim(s)
  {
    var t := Trim(s);
    if t != [] {
      assert TrimStart(t) == t;
      assert TrimEnd(t) == t;
    }
  }

  /** A non-white character at index `k` survives a trailing trim. */
  lemma {:induction false} TrimEndKeeps(s: string, k: nat)
    requires k < |s| && !IsWhiteSpace(s[k])
    ensures k < |TrimEnd(s)| && TrimEnd(s)[k] == s[k]
  {
    if IsWhiteSpace(s[|s| - 1]) {
      TrimEndKeeps(s[..|s| - 1], k);
    }
  }

  // ---------------------------------------------------------------------
  // Concatenation and string.Join
  // ---------------------------------------------------------------------

  /** All the pieces, one after another, in order. */
  function Flatten<T>(xss: seq<seq<T>>): seq<T> {
    if xss == [] then [] else Flatten(xss[..|xss| - 1]) + xss[|xss| - 1]
  }

  lemma {:induction false} FlattenAppend<T>(a: seq<seq<T>>, b: seq<seq<T>>)
    ensures Flatten(a + b) == Flatten(a) + Flatten(b)
    decreases |b|
  {
    if b == [] {
      assert a + b == a;
    } else {
      var n := |b| - 1;
      assert (a + b)[..|a + b| - 1] == a + b[..n];
      FlattenAppend(a, b[..n]);
    }
  }

  /** `xs.SelectMany(each)`: the pieces `each` gives for the elements, one after another. */
  function ConcatMap<T, U>(xs: seq<T>, each: T -> seq<U>): seq<U> {
    if xs == [] then [] else ConcatMap(xs[..|xs| - 1], each) + each(xs[|xs| - 1])
  }

  lemma {:induction false} ConcatMapAppend<T, U>(a: seq<T>, b: seq<T>, each: T -> seq<U>)
    ensures ConcatMap(a + b, each) == ConcatMap(a, each) + ConcatMap(b, each)
    decreases |b|
  {
    if b == [] {
      assert a + b == a;
    } else {
      var n := |b| - 1;
      assert (a + b)[..|a + b| - 1] == a + b[..n];
      ConcatMapAppend(a, b[..n], each);
    }
  }

  /** `string.Join(sep, xs)`: the separator between every two neighbours, none at the ends. */
  function Join(sep: string, xs: seq<string>): string {
    if xs == [] then ""
    else if |xs| == 1 then xs[0]
    else xs[0] + sep + Join(sep, xs[1..])
  }

  lemma {:induction false} JoinAppend(sep: string, a: seq<string>, b: seq<string>)
    requires a != [] && b != []
    ensures Join(sep, a + b) == Join(sep, a) + sep + Join(sep, b)
    decreases |a|
  {
    if |a| == 1 {
      assert (a + b)[1..] == b;
    } else {
      assert (a + b)[1..] == a[1..] + b;
      JoinAppend(sep, a[1..], b);
    }
  }

  /** `s.Split(c)`: the pieces between occurrences of `c`; always at least one piece. */
  function Split(s: string, c: char): (r: seq<string>)
    ensures |r| >= 1
  {
    if s == [] then [""]
    else
      var rest := Split(s[1..], c);
      if s[0] == c then [""] + rest else [[s[0]] + rest[0]] + rest[1..]
  }

  lemma {:induction false} SplitWithout(x: string, c: char)
    requires c !in x
    ensures Split(x, c) == [x]
  {
    if x != [] {
      SplitWithout(x[1..], c);
      assert [x[0]] + x[1..] == x;
    }
  }

  lemma {:induction false} SplitAfter(x: string, t: string, c: char)
    requires c !in x
    ensures Split(x + [c] + t, c) == [x] + Split(t, c)
  {
    var s := x + [c] + t;
    if x == [] {
      assert s[1..] == t;
    } else {
      assert s[1..] == x[1..] + [c] + t;
      SplitAfter(x[1..], t, c);
      assert [x[0]] + x[1..] == x;
    }
  }

  /** Splitting a join at the separator gives back the pieces, when no piece holds the separator. */
  lemma {:induction false} SplitJoin(xs: seq<string>, c: char)
    requires xs != []
    requires forall i :: 0 <= i < |xs| ==> c !in xs[i]
    ensures Split(Join([c], xs), c) == xs
  {
    if |xs| == 1 {
      SplitWithout(xs[0], c);
    } else {
      SplitJoin(xs[1..], c);
      SplitAfter(xs[0], Join([c], xs[1..]), c);
      assert [xs[0]] + xs[1..] == xs;
    }
  }

  // ---------------------------------------------------------------------
  // Path.GetExtension
  // ---------------------------------------------------------------------

  predicate IsDirectorySeparator(c: char) {
    c == '/' || c == '\\'
  }

  /**
   * `Path.GetExtension(path)`: from the last '.' to the end, provided no
   * directory separator follows it and it is not the last character;
   * otherwise the empty string.
   */
  function GetExtension(path: string): (ext: string)
    ensures ext == [] || (|ext| >= 2 && ext[0] == '.' && EndsWith(path, ext))
    ensures forall i :: 0 <= i < |ext| ==> !IsDirectorySeparator(ext[i])
    ensures forall i :: 1 <= i < |ext| ==> ext[i] != '.'
  {
    ExtensionScan(path, |path|)
  }

  function ExtensionScan(path: string, i: nat): (ext: string)
    requires i <= |path|
    requires forall j :: i <= j < |path| ==> path[j] != '.' && !IsDirectorySeparator(path[j])
    ensures ext == [] || (|ext| >= 2 && ext[0] == '.' && EndsWith(path, ext))
    ensures forall k :: 0 <= k < |ext| ==> !IsDirectorySeparator(ext[k])
    ensures forall k :: 1 <= k < |ext| ==> ext[k] != '.'
  {
    if i == 0 then ""
    else if path[i - 1] == '.' then (if i == |path| then "" else path[i - 1..])
    else if IsDirectorySeparator(path[i - 1]) then ""
    else ExtensionScan(path, i - 1)
  }

  /**
   * The extension is exactly the suffix that starts at a '.' which is not the
   * last character and is followed by no other '.' and no directory
   * separator. With the postcondition of `GetExtension`, this pins the
   * result: "" exactly when no such '.' exists.
   */
  lemma GetExtensionExactly(path: string, i: nat)
    requires i + 1 < |path| && path[i] == '.'
    requires forall j :: i < j < |path| ==> path[j] != '.' && !IsDirectorySeparator(path[j])
    ensures GetExtension(path) == path[i..]
  {
    ExtensionScanFinds(path, i, |path|);
  }

  lemma {:induction false} ExtensionScanFinds(path: string, i: nat, k: nat)
    requires i < k <= |path| && i + 1 < |path| && path[i] == '.'
    requires forall j :: i < j < |path| ==> path[j] != '.' && !IsDirectorySeparator(path[j])
    ensures ExtensionScan(path, k) == path[i..]
    decreases k
  {
    if k - 1 != i {
      ExtensionScanFinds(path, i, k - 1);
    }
  }

  /** A path whose last directory separator is followed by no '.' has no extension. */
  lemma NoExtensionAfterSeparator(path: string, i: nat)
    requires i < |path| && IsDirectorySeparator(path[i])
    requires forall j :: i < j < |path| ==> path[j] != '.' && !IsDirectorySeparator(path[j])
    ensures GetExtension(path) == ""
  {
    ExtensionScanStops(path, i, |path|);
  }

  lemma {:induction false} ExtensionScanStops(path: string, i: nat, k: nat)
    requires i < k <= |path| && IsDirectorySeparator(path[i])
    requires forall j :: i < j < |path| ==> path[j] != '.' && !IsDirectorySeparator(path[j])
    ensures ExtensionScan(path, k) == ""
    decreases k
  {
    if k - 1 != i {
      ExtensionScanStops(path, i, k - 1);
    }
  }

  /** Only the last '.' counts, and a '.' before a directory separator gives no extension. */
  lemma GetExtensionExamples()
    ensures GetExtension("docs/report.final.pdf") == ".pdf"
    ensures GetExtension("archive.d/README") == ""
    ensures GetExtension("notes.") == ""
  {
    GetExtensionExactly("docs/report.final.pdf", 17);
    NoExtensionAfterSeparator("archive.d/README", 9);
  }

  // ---------------------------------------------------------------------
  // StringBuilder
  // ---------------------------------------------------------------------

  /** An append-only text buffer; `newLine` is the platform's `Environment.NewLine`. */
  class StringBuilder {
    const newLine: string
    var text: string

    constructor (newLine: string)
      ensures this.newLine == newLine && text == ""
    {
      this.newLine := newLine;
      text := "";
    }

    method Append(s: string)
      modifies this
      ensures text == old(text) + s
    {
      text := text + s;
    }

    /** `AppendLine(s)`; `AppendLine()` is `AppendLine("")`. */
    method AppendLine(s: string)
      modifies this
      ensures text == old(text) + s + newLine
    {
      text := text + s + newLine;
    }
  }
}
