/**
 * The JavaScript string primitives the forms and pages rely on:
 * `split` on a one-character separator, `join`, `trim` and `toLowerCase`.
 */
module Text {

  /** Whitespace removed by `String.prototype.trim` (the Latin-1 part of its set). */
  predicate IsSpace(c: char) {
    c == ' ' || c == '\t' || c == '\n' || c == '\r'
    || c as int == 0x0B || c as int == 0x0C || c as int == 0xA0 || c as int == 0xFEFF
  }

  /** Number of occurrences of `c` in `s`. */
  function Count(s: string, c: char): nat {
    if |s| == 0 then 0 else (if s[0] == c then 1 else 0) + Count(s[1..], c)
  }

  lemma {:induction false} CountZero(s: string, c: char)
    ensures Count(s, c) == 0 <==> c !in s
  {
    if |s| > 0 {
      CountZero(s[1..], c);
      assert s == [s[0]] + s[1..];
    }
  }

  // ---------------------------------------------------------------------
  // split

  /**
   * `s.split(sep)`: the maximal separator-free pieces of `s`, in order.
   * There is always at least one piece (`"".split(",")` is `[""]`).
   */
  function Split(s: string, sep: char): (r: seq<string>)
    ensures |r| == Count(s, sep) + 1
    ensures forall i :: 0 <= i < |r| ==> sep !in r[i]
    ensures r[0] <= s
    ensures |r[0]| < |s| ==> s[|r[0]|] == sep
    ensures |r[0]| == |s| ==> r == [s]
  {
    if |s| == 0 then [""]
    else
      var rest := Split(s[1..], sep);
      assert s == [s[0]] + s[1..];
      if s[0] == sep then [""] + rest
      else
        assert [s[0]] + rest[0] <= s;
        [[s[0]] + rest[0]] + rest[1..]
  }

  /** The text before the first `sep`, i.e. `s.split(sep)[0]`. */
  function BeforeFirst(s: string, sep: char): (r: string)
    ensures r <= s && sep !in r
    ensures |r| < |s| ==> s[|r|] == sep
    ensures sep !in s ==> r == s
  {
    Split(s, sep)[0]
  }

  // ---------------------------------------------------------------------
  // join

  /** `parts.join(sep)`. */
  function Join(parts: seq<string>, sep: string): string {
    if |parts| == 0 then ""
    else if |parts| == 1 then parts[0]
    else parts[0] + sep + Join(parts[1..], sep)
  }

  lemma JoinPrepend(a: string, b: string, rest: seq<string>, sep: string)
    ensures Join([a + b] + rest, sep) == a + Join([b] + rest, sep)
  {
    if |rest| > 0 {
      assert ([a + b] + rest)[1..] == rest;
      assert ([b] + rest)[1..] == rest;
    }
  }

  /** Joining the pieces of a split with the separator gives back the text. */
  lemma {:induction false} JoinSplit(s: string, sep: char)
    ensures Join(Split(s, sep), [sep]) == s
  {
    if |s| > 0 {
      var rest := Split(s[1..], sep);
      JoinSplit(s[1..], sep);
      if s[0] == sep {
        assert ([""] + rest)[1..] == rest;
      } else {
        calc {
          Join([[s[0]] + rest[0]] + rest[1..], [sep]);
          { JoinPrepend([s[0]], rest[0], rest[1..], [sep]); }
          [s[0]] + Join([rest[0]] + rest[1..], [sep]);
          { assert [rest[0]] + rest[1..] == rest; }
          [s[0]] + s[1..];
        }
        assert [s[0]] + s[1..] == s;
      }
    }
  }

  /** Split of a separator-free prefix, the separator, then anything. */
  lemma {:induction false} SplitAfterPiece(a: string, b: string, sep: char)
    requires sep !in a
    ensures Split(a + [sep] + b, sep) == [a] + Split(b, sep)
  {
    if |a| == 0 {
      assert a + [sep] + b == [sep] + b;
      assert ([sep] + b)[1..] == b;
    } else {
      assert (a + [sep] + b)[1..] == a[1..] + [sep] + b;
      SplitAfterPiece(a[1..], b, sep);
      assert [a[0]] + a[1..] == a;
    }
  }

  /** Splitting the join of separator-free pieces gives back the pieces. */
  lemma {:induction false} SplitJoin(parts: seq<string>, sep: char)
    requires |parts| >= 1
    requires forall i :: 0 <= i < |parts| ==> sep !in parts[i]
    ensures Split(Join(parts, [sep]), sep) == parts
  {
    if |parts| > 1 {
      SplitJoin(parts[1..], sep);
      SplitAfterPiece(parts[0], Join(parts[1..], [sep]), sep);
      assert [parts[0]] + parts[1..] == parts;
    }
  }

  // ---------------------------------------------------------------------
  // trim

  function TrimStart(s: string): (r: string)
    ensures |r| <= |s|
    ensures r == s[|s| - |r|..]
    ensures |r| > 0 ==> !IsSpace(r[0])
    ensures forall i :: 0 <= i < |s| - |r| ==> IsSpace(s[i])
  {
    if |s| > 0 && IsSpace(s[0]) then TrimStart(s[1..]) else s
  }

  function TrimEnd(s: string): (r: string)
    ensures |r| <= |s|
    ensures r == s[..|r|]
    ensures |r| > 0 ==> !IsSpace(r[|r| - 1])
    ensures forall i :: |r| <= i < |s| ==> IsSpace(s[i])
  {
    if |s| > 0 && IsSpace(s[|s| - 1]) then TrimEnd(s[..|s| - 1]) else s
  }

  /** Neither end is whitespace. */
  predicate IsTrimmed(s: string) {
    |s| == 0 || (!IsSpace(s[0]) && !IsSpace(s[|s| - 1]))
  }

  /** `s.trim()`: the middle of `s` with whitespace removed from both ends. */
  function Trim(s: string): (r: string)
    ensures IsTrimmed(r) && |r| <= |s|
    ensures forall c :: c in r ==> c in s
    ensures IsTrimmed(s) ==> r == s
  {
    var t := TrimStart(s);
    assert forall c :: c in t ==> c in s;
    TrimEnd(t)
  }

  /** A single leading blank, as `join(', ')` leaves, is removed by trim. */
  lemma TrimAfterBlank(s: string)
    requires IsTrimmed(s)
    ensures Trim(" " + s) == s
  {
    var t := " " + s;
    assert IsSpace(t[0]) && t[1..] == s;
    assert TrimStart(t) == TrimStart(s);
    assert TrimStart(s) == s by {
      if |s| > 0 { assert !IsSpace(s[0]); }
    }
    assert TrimEnd(s) == s by {
      if |s| > 0 { assert !IsSpace(s[|s| - 1]); }
    }
  }

  // ---------------------------------------------------------------------
  // comma lists, as edited in the admin forms

  /** `text.split(',').map(t => t.trim())`. */
  function ParseList(text: string): (r: seq<string>)
    ensures |r| == Count(text, ',') + 1
    ensures forall i :: 0 <= i < |r| ==> ',' !in r[i] && IsTrimmed(r[i])
    ensures forall i :: 0 <= i < |r| ==> r[i] == Trim(Split(text, ',')[i])
  {
    var pieces := Split(text, ',');
    seq(|pieces|, i requires 0 <= i < |pieces| => TrimPiece(pieces[i]))
  }

  /** Trim of a comma-free piece stays comma-free. */
  function TrimPiece(p: string): (r: string)
    requires ',' !in p
    ensures ',' !in r && IsTrimmed(r) && r == Trim(p)
  {
    Trim(p)
  }

  /** `items.join(', ')`. */
  function JoinList(items: seq<string>): string {
    Join(items, ", ")
  }

  /** A list item that survives an edit round trip: comma-free and trimmed. */
  predicate CleanItem(s: string) {
    ',' !in s && IsTrimmed(s)
  }

  function Spaced(items: seq<string>): (r: seq<string>)
    ensures |r| == |items|
  {
    seq(|items|, i requires 0 <= i < |items| => " " + items[i])
  }

  lemma BlankJoin(a: string, rest: seq<string>)
    ensures " " + Join([a] + rest, ",") == Join([" " + a] + rest, ",")
  {
    if |rest| > 0 {
      assert ([a] + rest)[1..] == rest;
      assert ([" " + a] + rest)[1..] == rest;
    }
  }

  /** `join(', ')` is `join(',')` of the items after the first with a blank prefixed. */
  lemma {:induction false} JoinListAsCommaJoin(items: seq<string>)
    requires |items| >= 1
    ensures JoinList(items) == Join([items[0]] + Spaced(items[1..]), ",")
  {
    if |items| > 1 {
      var tail := items[1..];
      JoinListAsCommaJoin(tail);
      assert Spaced(tail) == [" " + tail[0]] + Spaced(tail[1..]);
      BlankJoin(tail[0], Spaced(tail[1..]));
      assert ([items[0]] + Spaced(tail))[1..] == Spaced(tail);
    }
  }

  lemma PiecesOfJoinList(items: seq<string>)
    requires |items| >= 1
    requires forall i :: 0 <= i < |items| ==> CleanItem(items[i])
    ensures var parts := [items[0]] + Spaced(items[1..]);
      && |parts| == |items|
      && parts[0] == items[0]
      && (forall i :: 1 <= i < |parts| ==> parts[i] == " " + items[i])
      && (forall i :: 0 <= i < |parts| ==> ',' !in parts[i])
  {
    var parts := [items[0]] + Spaced(items[1..]);
    forall i | 1 <= i < |parts|
      ensures parts[i] == " " + items[i] && ',' !in parts[i]
    {
      assert parts[i] == Spaced(items[1..])[i - 1];
    }
  }

  /** Trimming the pieces of `[items[0]] + Spaced(items[1..])` gives back the items. */
  lemma TrimSpacedPieces(items: seq<string>, parts: seq<string>)
    requires |items| >= 1 && |parts| == |items|
    requires forall i :: 0 <= i < |items| ==> CleanItem(items[i])
    requires parts[0] == items[0]
    requires forall i :: 1 <= i < |parts| ==> parts[i] == " " + items[i]
    ensures forall i :: 0 <= i < |parts| ==> Trim(parts[i]) == items[i]
  {
    forall i | 1 <= i < |parts|
      ensures Trim(parts[i]) == items[i]
    {
      TrimAfterBlank(items[i]);
    }
  }

  /** Parsing the comma-joined form of a non-empty list of clean items gives the list back. */
  lemma ParseJoinList(items: seq<string>)
    requires |items| >= 1
    requires forall i :: 0 <= i < |items| ==> CleanItem(items[i])
    ensures ParseList(JoinList(items)) == items
  {
    var parts := [items[0]] + Spaced(items[1..]);
    JoinListAsCommaJoin(items);
    PiecesOfJoinList(items);
    SplitJoin(parts, ',');
    assert Split(JoinList(items), ',') == parts;
    TrimSpacedPieces(items, parts);
    var r := ParseList(JoinList(items));
    assert |r| == |parts| == |items|;
    forall i | 0 <= i < |r|
      ensures r[i] == items[i]
    {
      assert r[i] == Trim(parts[i]);
    }
  }

  // ---------------------------------------------------------------------
  // lower case

  /** ASCII case folding of one character. */
  function LowerChar(c: char): (r: char)
    ensures 'A' <= c <= 'Z' ==> r as int == c as int + 32
    ensures !('A' <= c <= 'Z') ==> r == c
  {
    if 'A' <= c <= 'Z' then (c as int + 32) as char else c
  }

  /** `s.toLowerCase()`, on the ASCII letters. */
  function ToLower(s: string): (r: string)
    ensures |r| == |s|
    ensures forall i :: 0 <= i < |s| ==> r[i] == LowerChar(s[i])
  {
    seq(|s|, i requires 0 <= i < |s| => LowerChar(s[i]))
  }

  /** Text with no capital letter is its own lower case. */
  lemma ToLowerNoCapitals(s: string)
    requires forall i :: 0 <= i < |s| ==> !('A' <= s[i] <= 'Z')
    ensures ToLower(s) == s
  {
  }

  lemma ToLowerIdempotent(s: string)
    ensures ToLower(ToLower(s)) == ToLower(s)
  {
  }
}
