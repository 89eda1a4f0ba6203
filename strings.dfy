/** The .NET string operations the commands rely on, over `seq<char>`:
    `String.Split` with one separator and no options, `String.Join`,
    `String.IsNullOrEmpty` and `ToLower` (ASCII letters only). */
module Strings {
  import opened Wrappers

  /** `String.IsNullOrEmpty`; a C# null is `None`. */
  predicate IsNullOrEmpty(s: Option<string>) {
    s.None? || s.value == ""
  }

  /** Splitting `s` when the piece read so far is `cur`: the leftmost
      occurrence of `sep` ends a piece, and the rest is split again. */
  function SplitFrom(s: string, sep: string, cur: string): (r: seq<string>)
    requires |sep| > 0
    ensures |r| > 0
    decreases |s|
  {
    if |s| == 0 then [cur]
    else if |sep| <= |s| && s[..|sep|] == sep then [cur] + SplitFrom(s[|sep|..], sep, "")
    else SplitFrom(s[1..], sep, cur + [s[0]])
  }

  /** `s.Split(sep)` / `s.Split(new[] { sep }, StringSplitOptions.None)`:
      empty pieces are kept, so there is always at least one piece. */
  function Split(s: string, sep: string): (r: seq<string>)
    requires |sep| > 0
    ensures |r| > 0
  {
    SplitFrom(s, sep, "")
  }

  /** `String.Join(sep, parts)`. */
  function Join(sep: string, parts: seq<string>): string {
    if |parts| == 0 then ""
    else if |parts| == 1 then parts[0]
    else parts[0] + sep + Join(sep, parts[1..])
  }

  lemma JoinCons(sep: string, x: string, rest: seq<string>)
    requires |rest| > 0
    ensures Join(sep, [x] + rest) == x + sep + Join(sep, rest)
  {
    assert ([x] + rest)[1..] == rest;
  }

  lemma {:induction false} JoinSplitFrom(s: string, sep: string, cur: string)
    requires |sep| > 0
    ensures Join(sep, SplitFrom(s, sep, cur)) == cur + s
    decreases |s|
  {
    if |s| == 0 {
    } else if |sep| <= |s| && s[..|sep|] == sep {
      var rest := SplitFrom(s[|sep|..], sep, "");
      calc {
        Join(sep, SplitFrom(s, sep, cur));
        Join(sep, [cur] + rest);
        { JoinCons(sep, cur, rest); }
        cur + sep + Join(sep, rest);
        { JoinSplitFrom(s[|sep|..], sep, ""); }
        cur + sep + ("" + s[|sep|..]);
        { assert s == sep + s[|sep|..]; }
        cur + s;
      }
    } else {
      calc {
        Join(sep, SplitFrom(s, sep, cur));
        Join(sep, SplitFrom(s[1..], sep, cur + [s[0]]));
        { JoinSplitFrom(s[1..], sep, cur + [s[0]]); }
        cur + [s[0]] + s[1..];
        { assert s == [s[0]] + s[1..]; }
        cur + s;
      }
    }
  }

  /** Joining the pieces with the separator gives back the string. */
  lemma JoinSplit(s: string, sep: string)
    requires |sep| > 0
    ensures Join(sep, Split(s, sep)) == s
  {
    JoinSplitFrom(s, sep, "");
  }

  lemma {:induction false} SplitFromPlain(x: string, c: char, cur: string)
    requires c !in x
    ensures SplitFrom(x, [c], cur) == [cur + x]
    decreases |x|
  {
    if |x| > 0 {
      assert x[..1] != [c] by { assert x[0] in x; assert x[..1] == [x[0]]; }
      SplitFromPlain(x[1..], c, cur + [x[0]]);
      assert cur + [x[0]] + x[1..] == cur + x;
    } else {
      assert cur + x == cur;
    }
  }

  lemma {:induction false} SplitFromPiece(x: string, c: char, rest: string, cur: string)
    requires c !in x
    ensures SplitFrom(x + [c] + rest, [c], cur) == [cur + x] + SplitFrom(rest, [c], "")
    decreases |x|
  {
    var s := x + [c] + rest;
    if |x| == 0 {
      assert s == [c] + rest;
      assert s[..1] == [c];
      assert s[1..] == rest;
      assert cur + x == cur;
    } else {
      assert s[..1] != [c] by { assert s[0] == x[0]; }
      assert s[1..] == x[1..] + [c] + rest;
      SplitFromPiece(x[1..], c, rest, cur + [x[0]]);
      assert cur + [x[0]] + x[1..] == cur + x;
    }
  }

  /** With a one-character separator that no part contains, splitting the
      joined parts gives back the parts. */
  lemma {:induction false} SplitJoin(c: char, parts: seq<string>)
    requires |parts| > 0
    requires forall i :: 0 <= i < |parts| ==> c !in parts[i]
    ensures Split(Join([c], parts), [c]) == parts
    decreases |parts|
  {
    if |parts| == 1 {
      SplitFromPlain(parts[0], c, "");
    } else {
      SplitJoin(c, parts[1..]);
      JoinCons([c], parts[0], parts[1..]);
      SplitFromPiece(parts[0], c, Join([c], parts[1..]), "");
      assert "" + parts[0] == parts[0];
      assert Join([c], parts) == parts[0] + [c] + Join([c], parts[1..]);
      assert parts == [parts[0]] + parts[1..];
    }
  }

  lemma {:induction false} SplitFromPieces(s: string, c: char, cur: string)
    requires c !in cur
    ensures forall i :: 0 <= i < |SplitFrom(s, [c], cur)| ==> c !in SplitFrom(s, [c], cur)[i]
    decreases |s|
  {
    if |s| == 0 {
    } else if s[..1] == [c] {
      SplitFromPieces(s[1..], c, "");
    } else {
      assert s[0] != c by { assert s[..1] == [s[0]]; }
      SplitFromPieces(s[1..], c, cur + [s[0]]);
    }
  }

  /** No piece of a split on a one-character separator contains it. */
  lemma SplitPieces(s: string, c: char)
    ensures forall i :: 0 <= i < |Split(s, [c])| ==> c !in Split(s, [c])[i]
  {
    SplitFromPieces(s, c, "");
  }

  /** `Char.ToLowerInvariant` on ASCII letters; every other character is kept. */
  function LowerChar(c: char): (r: char)
    ensures 'A' <= c <= 'Z' ==> r as int == c as int + 32
    ensures !('A' <= c <= 'Z') ==> r == c
  {
    if 'A' <= c <= 'Z' then (c as int + 32) as char else c
  }

  /** `s.ToLower()`, character by character. */
  function Lower(s: string): (r: string)
    ensures |r| == |s|
    ensures forall i :: 0 <= i < |s| ==> r[i] == LowerChar(s[i])
  {
    if |s| == 0 then "" else [LowerChar(s[0])] + Lower(s[1..])
  }
}
