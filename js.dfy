/*
 * The pieces of JavaScript semantics the handlers and the vCard generator
 * rely on: JSON values and their truthiness, the `||` operator,
 * `String.prototype.trim` used as a test, and `split('\n')`, `filter` and
 * `join('\n')` on strings.
 */
module Js {

  datatype Option<+T> = None | Some(value: T)

  /** A value decoded from a JSON request body (or read from a header).
      `Compound` stands for any array or object; numbers are integers here. */
  datatype Value =
    | Undefined
    | Null
    | Bool(b: bool)
    | Num(n: int)
    | Str(s: string)
    | Compound

  /** ECMAScript ToBoolean: what `if (v)` and `!v` test. */
  predicate Truthy(v: Value) {
    match v
    case Undefined => false
    case Null => false
    case Bool(b) => b
    case Num(n) => n != 0
    case Str(s) => s != ""
    case Compound => true
  }

  /** `a || b`: the left operand when it is truthy, otherwise the right one. */
  function Or(a: Value, b: Value): Value {
    if Truthy(a) then a else b
  }

  /** An optional string property (`phone?: string`) is truthy when it is set and non-empty. */
  predicate Present(o: Option<string>) {
    o.Some? && o.value != ""
  }

  /** The characters `trim()` removes: ECMAScript WhiteSpace and LineTerminator. */
  predicate IsWhitespace(c: char) {
    || c == ' ' || c == '\t' || c == '\n' || c == '\r'
    || c == '\U{000B}' || c == '\U{000C}' || c == '\U{00A0}' || c == '\U{FEFF}'
    || c == '\U{1680}' || ('\U{2000}' <= c <= '\U{200A}')
    || c == '\U{2028}' || c == '\U{2029}' || c == '\U{202F}' || c == '\U{205F}' || c == '\U{3000}'
  }

  /** `s.trim()` is the empty string, so `!s.trim()` holds. */
  predicate IsBlank(s: string) {
    forall i :: 0 <= i < |s| ==> IsWhitespace(s[i])
  }

  /** `s.split('\n')`: the pieces between newlines; never empty, "" gives [""]. */
  function Split(s: string): (r: seq<string>)
    ensures |r| >= 1
    ensures forall i :: 0 <= i < |r| ==> '\n' !in r[i]
  {
    if s == [] then [""]
    else
      var rest := Split(s[1..]);
      if s[0] == '\n' then [""] + rest
      else [[s[0]] + rest[0]] + rest[1..]
  }

  /** `ls.join('\n')`. */
  function Join(ls: seq<string>): string {
    if |ls| == 0 then ""
    else if |ls| == 1 then ls[0]
    else ls[0] + "\n" + Join(ls[1..])
  }

  /** `ls.filter(line => line.trim())`: the non-blank lines, in order. */
  function NonBlank(ls: seq<string>): (r: seq<string>)
    ensures |r| <= |ls|
    ensures forall i :: 0 <= i < |r| ==> !IsBlank(r[i])
  {
    if ls == [] then []
    else if IsBlank(ls[0]) then NonBlank(ls[1..])
    else [ls[0]] + NonBlank(ls[1..])
  }

  /** `s.split('\n').filter(line => line.trim()).join('\n')`. */
  function Normalize(s: string): string {
    Join(NonBlank(Split(s)))
  }

  /** The pieces of every string of `ls`, split at its newlines, one after another. */
  function SplitAll(ls: seq<string>): seq<string> {
    if ls == [] then [] else Split(ls[0]) + SplitAll(ls[1..])
  }

  /** Splitting undoes joining: `s.split('\n').join('\n') === s`. */
  lemma {:induction false} JoinSplit(s: string)
    ensures Join(Split(s)) == s
  {
    if s != [] {
      JoinSplit(s[1..]);
      var rest := Split(s[1..]);
      if s[0] != '\n' && |rest| > 1 {
        assert Join(rest) == rest[0] + "\n" + Join(rest[1..]);
        assert s == [s[0]] + s[1..];
      }
    }
  }

  /** A newline in the string splits it into the pieces of either side. */
  lemma {:induction false} SplitAroundNewline(a: string, b: string)
    ensures Split(a + "\n" + b) == Split(a) + Split(b)
  {
    var s := a + "\n" + b;
    if a == [] {
      assert s[0] == '\n' && s[1..] == b;
    } else {
      assert s[0] == a[0] && s[1..] == a[1..] + "\n" + b;
      SplitAroundNewline(a[1..], b);
    }
  }

  /** Splitting a joined list gives the pieces of each member in turn. */
  lemma {:induction false} SplitOfJoin(ls: seq<string>)
    requires |ls| >= 1
    ensures Split(Join(ls)) == SplitAll(ls)
  {
    if |ls| == 1 {
      assert SplitAll(ls) == Split(ls[0]) + SplitAll([]);
    } else {
      SplitAroundNewline(ls[0], Join(ls[1..]));
      SplitOfJoin(ls[1..]);
    }
  }

  /** A string without a newline splits into itself alone. */
  lemma {:induction false} SplitWithoutNewline(s: string)
    requires '\n' !in s
    ensures Split(s) == [s]
  {
    if s != [] {
      assert '\n' !in s[1..] by {
        forall i | 0 <= i < |s[1..]| ensures s[1..][i] != '\n' {
          assert s[1..][i] == s[i + 1];
        }
      }
      SplitWithoutNewline(s[1..]);
      assert s == [s[0]] + s[1..];
    }
  }

  /** Lines that hold no newline are their own pieces. */
  lemma {:induction false} SplitAllWithoutNewlines(ls: seq<string>)
    requires forall i :: 0 <= i < |ls| ==> '\n' !in ls[i]
    ensures SplitAll(ls) == ls
  {
    if ls != [] {
      SplitWithoutNewline(ls[0]);
      SplitAllWithoutNewlines(ls[1..]);
    }
  }

  /** Splitting a non-empty list of newline-free lines, joined, gives the list back. */
  lemma SplitJoin(ls: seq<string>)
    requires |ls| >= 1
    requires forall i :: 0 <= i < |ls| ==> '\n' !in ls[i]
    ensures Split(Join(ls)) == ls
  {
    SplitOfJoin(ls);
    SplitAllWithoutNewlines(ls);
  }

  /** Filtering distributes over concatenation. */
  lemma {:induction false} NonBlankAppend(a: seq<string>, b: seq<string>)
    ensures NonBlank(a + b) == NonBlank(a) + NonBlank(b)
  {
    if a == [] {
      assert a + b == b;
    } else {
      assert (a + b)[0] == a[0] && (a + b)[1..] == a[1..] + b;
      NonBlankAppend(a[1..], b);
    }
  }

  /** Filtering keeps a list whose lines are all non-blank as it is. */
  lemma {:induction false} NonBlankOfNonBlank(ls: seq<string>)
    requires forall i :: 0 <= i < |ls| ==> !IsBlank(ls[i])
    ensures NonBlank(ls) == ls
  {
    if ls != [] {
      NonBlankOfNonBlank(ls[1..]);
    }
  }

  /** Filtering keeps newline-free lines newline-free. */
  lemma {:induction false} NonBlankWithoutNewlines(ls: seq<string>)
    requires forall i :: 0 <= i < |ls| ==> '\n' !in ls[i]
    ensures forall i :: 0 <= i < |NonBlank(ls)| ==> '\n' !in NonBlank(ls)[i]
  {
    if ls != [] {
      NonBlankWithoutNewlines(ls[1..]);
    }
  }

  /** The lines of a normalized string are exactly the non-blank pieces of the original. */
  lemma NormalizedLines(s: string)
    requires NonBlank(Split(s)) != []
    ensures Split(Normalize(s)) == NonBlank(Split(s))
  {
    NonBlankWithoutNewlines(Split(s));
    SplitJoin(NonBlank(Split(s)));
  }

  /** Normalizing twice is normalizing once: the second pass finds no blank line. */
  lemma NormalizeIdempotent(s: string)
    ensures Normalize(Normalize(s)) == Normalize(s)
  {
    var kept := NonBlank(Split(s));
    if kept == [] {
      assert Normalize(s) == "";
      assert Split("") == [""];
      assert IsBlank("");
      assert NonBlank([""]) == [];
    } else {
      NormalizedLines(s);
      NonBlankOfNonBlank(kept);
    }
  }
}
